/** The SOCKS5 server and the SOCKS5 client of the self-check, as the two ends of one dialog: sections 3 to 6 of RFC 1928
    and section 2 of RFC 1929. */
module SocksDialog {
  import opened Wrappers
  import opened Socks

  const NO_AUTH: byte := 0
  const USER_PASS: byte := 2
  const UNACCEPTABLE: byte := 255

  const CONNECT: byte := 1
  const UDP_ASSOCIATE: byte := 3

  const SUCCESS: byte := 0
  const GENERAL_FAILURE: byte := 1
  const NETWORK_UNREACHABLE: byte := 3
  const HOST_UNREACHABLE: byte := 4
  const COMMAND_UNSUPPORTED: byte := 7
  const ADDR_UNSUPPORTED: byte := 8

  datatype Auth = Auth(username: bytes, password: bytes)

  datatype AddrSpec = AddrSpec(host: bytes, ip: bytes, port: Port)

  /** One end of a connection: what is still to be read from the peer, and what was written to it. */
  datatype Wire = Wire(input: bytes, output: bytes)

  datatype Error = EndOfInput | WrongVersion | NoMethod | BadCredentials | AddrUnsupported | Refused(rep: byte)

  datatype Read<+T> = Got(value: T, wire: Wire) | Failed(error: Error, wire: Wire) {
    predicate IsFailure() {
      Failed?
    }

    function PropagateFailure<U>(): Read<U>
      requires Failed?
    {
      Failed(error, wire)
    }

    function Extract(): (T, Wire)
      requires Got?
    {
      (value, wire)
    }
  }

  /** The first `n` bytes, or everything that was left and an error. */
  function ReadFull(w: Wire, n: nat): (r: Read<bytes>)
    ensures r.Got? ==> |r.value| == n && r.value + r.wire.input == w.input
    ensures r.wire.output == w.output
  {
    if n <= |w.input| then Got(w.input[..n], w.(input := w.input[n..])) else Failed(EndOfInput, w.(input := []))
  }

  function Write(w: Wire, data: bytes): Wire {
    w.(output := w.output + data)
  }

  // ---- The server ----

  /** What the server finds outside the dialog: the tunnel gate, its resolver, its dialer and its UDP relay's port. */
  datatype Env = Env(gate: bool, resolve: bytes -> Option<bytes>, dial: Addr -> Option<Addr>, relay: Option<Port>)

  datatype Service = Connected(target: AddrSpec) | Associated

  function Method(auth: Option<Auth>): byte {
    if auth.Some? then USER_PASS else NO_AUTH
  }

  function ServerHandshake(auth: Option<Auth>, w: Wire): Read<()> {
    var (hdr, w) :- ReadFull(w, 2);
    if hdr[0] != 5 then Failed(WrongVersion, w)
    else
      var (methods, w) :- ReadFull(w, hdr[1]);
      if Method(auth) !in methods then Failed(NoMethod, Write(w, [5, UNACCEPTABLE]))
      else
        var w := Write(w, [5, Method(auth)]);
        if auth.Some? then ServerLogin(auth.value, w) else Got((), w)
  }

  function ServerLogin(auth: Auth, w: Wire): Read<()> {
    var (hdr, w) :- ReadFull(w, 2);
    if hdr[0] != 1 then Failed(WrongVersion, w)
    else
      var (uname, w) :- ReadFull(w, hdr[1]);
      var (plen, w) :- ReadFull(w, 1);
      var (passwd, w) :- ReadFull(w, plen[0]);
      if uname != auth.username || passwd != auth.password then Failed(BadCredentials, Write(w, [1, 1]))
      else Got((), Write(w, [1, 0]))
  }

  function ServerRequest(w: Wire): Read<(byte, AddrSpec)> {
    var (hdr, w) :- ReadFull(w, 4);
    if hdr[0] != 5 then Failed(WrongVersion, w)
    else
      var (addr, w) :- ServerAddr(w, hdr[3]);
      Got((hdr[1], addr), w)
  }

  function ServerAddr(w: Wire, atyp: byte): Read<AddrSpec> {
    if atyp == IPV4 then
      var (buf, w) :- ReadFull(w, 6);
      Got(AddrSpec([], buf[..4], FromU16(buf[4], buf[5])), w)
    else if atyp == IPV6 then
      var (buf, w) :- ReadFull(w, 18);
      Got(AddrSpec([], buf[..16], FromU16(buf[16], buf[17])), w)
    else if atyp == DOMAIN then
      var (l, w) :- ReadFull(w, 1);
      var (buf, w) :- ReadFull(w, l[0] as int + 2);
      Got(AddrSpec(buf[..l[0]], [], FromU16(buf[l[0]], buf[l[0] + 1])), w)
    else Failed(AddrUnsupported, w)
  }

  /** The zero address stands for a reply without a bound one. */
  const NO_ADDR: Addr := Addr([0, 0, 0, 0], 0)

  function Reply(rep: byte, bound: Addr): bytes {
    match To4(bound.ip)
    case Some(ip4) => [5, rep, 0, IPV4] + ip4 + U16(bound.port)
    case None => [5, rep, 0, IPV6] + To16(bound.ip) + U16(bound.port)
  }

  /** The reply code for CONNECT and the address the outgoing connection is bound to. */
  function Dialed(env: Env, a: AddrSpec): (byte, Addr) {
    if !env.gate then (NETWORK_UNREACHABLE, NO_ADDR)
    else
      var ip := if a.host == [] then Some(a.ip) else env.resolve(a.host);
      if ip.None? then (HOST_UNREACHABLE, NO_ADDR)
      else match env.dial(Addr(ip.value, a.port))
        case None => (NETWORK_UNREACHABLE, NO_ADDR)
        case Some(bound) => (SUCCESS, bound)
  }

  function ServerConnect(env: Env, a: AddrSpec, w: Wire): Read<Service> {
    var (rep, bound) := Dialed(env, a);
    var w := Write(w, Reply(rep, bound));
    if rep == SUCCESS then Got(Connected(a), w) else Failed(Refused(rep), w)
  }

  function ServerAssociate(env: Env, w: Wire): Read<Service> {
    if !env.gate then Failed(Refused(NETWORK_UNREACHABLE), Write(w, Reply(NETWORK_UNREACHABLE, NO_ADDR)))
    else match env.relay
      case None => Failed(Refused(GENERAL_FAILURE), Write(w, Reply(GENERAL_FAILURE, NO_ADDR)))
      case Some(port) => Got(Associated, Write(w, Reply(SUCCESS, Addr([0, 0, 0, 0], port))))
  }

  function ServerAnswer(env: Env, w: Wire): Read<Service> {
    match ServerRequest(w)
    case Failed(AddrUnsupported, w) => Failed(AddrUnsupported, Write(w, Reply(ADDR_UNSUPPORTED, NO_ADDR)))
    case Failed(error, w) => Failed(error, w)
    case Got((cmd, addr), w) =>
      if cmd == CONNECT then ServerConnect(env, addr, w)
      else if cmd == UDP_ASSOCIATE then ServerAssociate(env, w)
      else Failed(Refused(COMMAND_UNSUPPORTED), Write(w, Reply(COMMAND_UNSUPPORTED, NO_ADDR)))
  }

  function Serve(auth: Option<Auth>, env: Env, w: Wire): Read<Service> {
    var (_, w) :- ServerHandshake(auth, w);
    ServerAnswer(env, w)
  }

  // ---- The client ----

  /** The target as the client names it; `literal` is the IPv4 address its host spells, if it spells one. */
  datatype Target = Target(host: bytes, literal: Option<bytes>, port: Port)

  ghost predicate WellFormed(t: Target) {
    t.literal.Some? ==> |t.literal.value| == 4
  }

  /** A length in one byte: the conversion keeps the low eight bits. */
  function Len(s: bytes): byte {
    |s| % 256
  }

  function Greeting(auth: Option<Auth>): bytes {
    [5, 1, Method(auth)]
  }

  function LoginOf(auth: Auth): bytes {
    [1, Len(auth.username)] + auth.username + [Len(auth.password)] + auth.password
  }

  function RequestOf(t: Target): bytes {
    [5, CONNECT, 0] +
    (match t.literal
     case Some(ip4) => [IPV4] + ip4
     case None => [DOMAIN, Len(t.host)] + t.host) + U16(t.port)
  }

  function ClientGreet(auth: Option<Auth>, w: Wire): Read<()> {
    var (resp, w) :- ReadFull(Write(w, Greeting(auth)), 2);
    if resp[1] != Method(auth) then Failed(NoMethod, w) else Got((), w)
  }

  function ClientLogin(auth: Auth, w: Wire): Read<()> {
    var (st, w) :- ReadFull(Write(w, LoginOf(auth)), 2);
    if st[1] != 0 then Failed(BadCredentials, w) else Got((), w)
  }

  function ClientReply(w: Wire): Read<()> {
    var (reply, w) :- ReadFull(w, 4);
    if reply[1] != 0 then Failed(Refused(reply[1]), w)
    else if reply[3] == IPV4 then
      var (_, w) :- ReadFull(w, 6);
      Got((), w)
    else if reply[3] == IPV6 then
      var (_, w) :- ReadFull(w, 18);
      Got((), w)
    else if reply[3] == DOMAIN then
      var (l, w) :- ReadFull(w, 1);
      var (_, w) :- ReadFull(w, l[0] as int + 2);
      Got((), w)
    else Got((), w)
  }

  function ClientRequest(t: Target, w: Wire): Read<()> {
    ClientReply(Write(w, RequestOf(t)))
  }

  function Dial(auth: Option<Auth>, t: Target, w: Wire): Read<()> {
    var (_, w) :- ClientGreet(auth, w);
    if auth.None? then ClientRequest(t, w)
    else
      var (_, w) :- ClientLogin(auth.value, w);
      ClientRequest(t, w)
  }

  // ---- One side's reads against the other side's writes ----

  lemma ReadsExactly(data: bytes, rest: bytes, output: bytes)
    ensures ReadFull(Wire(data + rest, output), |data|) == Got(data, Wire(rest, output))
  {
  }

  lemma GreetingIsRead(mine: Option<Auth>, auth: Option<Auth>, rest: bytes)
    ensures ServerHandshake(auth, Wire(Greeting(mine) + rest, [])) ==
            if mine.Some? != auth.Some? then Failed(NoMethod, Wire(rest, [5, UNACCEPTABLE]))
            else if auth.Some? then ServerLogin(auth.value, Wire(rest, [5, USER_PASS]))
            else Got((), Wire(rest, [5, NO_AUTH]))
  {
    hide ReadFull, ServerLogin;
    assert Greeting(mine) + rest == [5, 1] + ([Method(mine)] + rest);
    ReadsExactly([5, 1], [Method(mine)] + rest, []);
    ReadsExactly([Method(mine)], rest, []);
    assert Write(Wire(rest, []), [5, UNACCEPTABLE]).output == [5, UNACCEPTABLE];
    assert Write(Wire(rest, []), [5, Method(auth)]).output == [5, Method(auth)];
  }

  ghost predicate Short(auth: Auth) {
    |auth.username| <= 255 && |auth.password| <= 255
  }

  lemma LoginShape(mine: Auth, rest: bytes)
    ensures var (u, p) := (mine.username, mine.password);
            LoginOf(mine) + rest == [1, Len(u)] + (u + ([Len(p)] + (p + rest)))
  {
  }

  lemma LoginIsRead(mine: Auth, auth: Auth, rest: bytes, output: bytes)
    requires Short(mine)
    ensures ServerLogin(auth, Wire(LoginOf(mine) + rest, output)) ==
            if mine == auth then Got((), Wire(rest, output + [1, 0])) else Failed(BadCredentials, Wire(rest, output + [1, 1]))
  {
    hide ReadFull;
    var (u, p) := (mine.username, mine.password);
    var afterP := p + rest;
    var afterU := [Len(p)] + afterP;
    LoginShape(mine, rest);
    hide LoginOf;
    ReadsExactly([1, Len(u)], u + afterU, output);
    ReadsExactly(u, afterU, output);
    ReadsExactly([Len(p)], afterP, output);
    ReadsExactly(p, rest, output);
  }

  /** The address the server should decode: the literal, or the host as a domain. */
  function Decoded(t: Target): AddrSpec {
    match t.literal
    case Some(ip4) => AddrSpec([], ip4, t.port)
    case None => AddrSpec(t.host, [], t.port)
  }

  lemma RequestIsRead(t: Target, rest: bytes, output: bytes)
    requires WellFormed(t) && |t.host| <= 255
    ensures ServerRequest(Wire(RequestOf(t) + rest, output)) == Got((CONNECT, Decoded(t)), Wire(rest, output))
  {
    hide ReadFull, ServerAddr, RequestOf;
    var atyp := if t.literal.Some? then IPV4 else DOMAIN;
    var tail := if t.literal.Some? then t.literal.value + U16(t.port) else [Len(t.host)] + (t.host + U16(t.port));
    RequestShape(t, rest);
    ReadsExactly([5, CONNECT, 0, atyp], tail + rest, output);
    if t.literal.Some? {
      LiteralIsRead(t.literal.value, t.port, rest, output);
    } else {
      assert tail + rest == [Len(t.host)] + (t.host + U16(t.port) + rest);
      DomainIsRead(t.host, t.port, rest, output);
    }
  }

  lemma RequestShape(t: Target, rest: bytes)
    ensures t.literal.Some? ==> RequestOf(t) + rest == [5, CONNECT, 0, IPV4] + (t.literal.value + U16(t.port) + rest)
    ensures t.literal.None? ==> RequestOf(t) + rest == [5, CONNECT, 0, DOMAIN] + ([Len(t.host)] + (t.host + U16(t.port)) + rest)
  {
  }

  lemma LiteralIsRead(ip4: bytes, port: Port, rest: bytes, output: bytes)
    requires |ip4| == 4
    ensures ServerAddr(Wire(ip4 + U16(port) + rest, output), IPV4) == Got(AddrSpec([], ip4, port), Wire(rest, output))
  {
    U16RoundTrip(port);
    ReadsExactly(ip4 + U16(port), rest, output);
  }

  lemma DomainIsRead(host: bytes, port: Port, rest: bytes, output: bytes)
    requires |host| <= 255
    ensures ServerAddr(Wire([Len(host)] + (host + U16(port) + rest), output), DOMAIN) ==
            Got(AddrSpec(host, [], port), Wire(rest, output))
  {
    hide ReadFull;
    U16RoundTrip(port);
    var buf := host + U16(port);
    ReadsExactly([Len(host)], buf + rest, output);
    ReadsExactly(buf, rest, output);
    assert buf[..|host|] == host && buf[|host|] == U16(port)[0] && buf[|host| + 1] == U16(port)[1];
  }

  /** The client takes from the stream exactly the reply the server wrote, for IPv4 and IPv6 bound addresses. */
  lemma ReplyIsRead(rep: byte, bound: Addr, rest: bytes, output: bytes)
    requires |bound.ip| == 4 || |bound.ip| == 16
    ensures var r := ClientReply(Wire(Reply(rep, bound) + rest, output));
            if rep == SUCCESS then r == Got((), Wire(rest, output))
            else r.Failed? && r.error == Refused(rep) && r.wire.output == output
  {
    var (atyp, raw) := match To4(bound.ip) case Some(ip4) => (IPV4, ip4) case None => (IPV6, To16(bound.ip));
    assert Reply(rep, bound) + rest == [5, rep, 0, atyp] + (raw + U16(bound.port) + rest);
    ReadsExactly([5, rep, 0, atyp], raw + U16(bound.port) + rest, output);
    ReadsExactly(raw + U16(bound.port), rest, output);
  }

  /** UDP ASSOCIATE is answered with success exactly when the gate is open and there is a relay; then the client that asked
      has consumed exactly the answer. */
  lemma AssociateIsAnswered(env: Env, w: Wire, rest: bytes, output: bytes)
    ensures var s := ServerAssociate(env, w);
            && w.output <= s.wire.output && s.wire.input == w.input
            && var c := ClientReply(Wire(s.wire.output[|w.output|..] + rest, output));
               && (c.Got? <==> env.gate && env.relay.Some?) && (s.Got? <==> c.Got?)
               && (c.Got? ==> c.wire.input == rest)
  {
    hide Reply, ClientReply;
    var s := ServerAssociate(env, w);
    var (rep, bound) := if !env.gate then (NETWORK_UNREACHABLE, NO_ADDR)
                        else if env.relay.None? then (GENERAL_FAILURE, NO_ADDR)
                        else (SUCCESS, Addr([0, 0, 0, 0], env.relay.value));
    assert s.wire.output == w.output + Reply(rep, bound);
    assert s.wire.output[|w.output|..] == Reply(rep, bound);
    ReplyIsRead(rep, bound, rest, output);
  }

  // ---- Beyond what the self-check's client sends ----

  /** Any list of offered methods will do that has the right one, wherever it stands; no other one will. */
  lemma AnyOfferWillDo(auth: Option<Auth>, offered: bytes, rest: bytes)
    requires |offered| <= 255
    ensures var r := ServerHandshake(auth, Wire([5, |offered|] + offered + rest, []));
            if Method(auth) !in offered then r == Failed(NoMethod, Wire(rest, [5, UNACCEPTABLE]))
            else if auth.Some? then r == ServerLogin(auth.value, Wire(rest, [5, USER_PASS]))
            else r == Got((), Wire(rest, [5, NO_AUTH]))
  {
    hide ReadFull, ServerLogin;
    assert [5, |offered|] + offered + rest == [5, |offered|] + (offered + rest);
    ReadsExactly([5, |offered|], offered + rest, []);
    ReadsExactly(offered, rest, []);
    assert Write(Wire(rest, []), [5, UNACCEPTABLE]).output == [5, UNACCEPTABLE];
    assert Write(Wire(rest, []), [5, Method(auth)]).output == [5, Method(auth)];
  }

  /** A request with a sixteen-byte address is decoded as it stands. */
  lemma Ipv6RequestIsRead(cmd: byte, ip: bytes, port: Port, rest: bytes, output: bytes)
    requires |ip| == 16
    ensures ServerRequest(Wire([5, cmd, 0, IPV6] + (ip + U16(port)) + rest, output)) ==
            Got((cmd, AddrSpec([], ip, port)), Wire(rest, output))
  {
    U16RoundTrip(port);
    assert [5, cmd, 0, IPV6] + (ip + U16(port)) + rest == [5, cmd, 0, IPV6] + ((ip + U16(port)) + rest);
    ReadsExactly([5, cmd, 0, IPV6], (ip + U16(port)) + rest, output);
    ReadsExactly(ip + U16(port), rest, output);
  }

  /** What the server cannot do is refused by name: an address type with reply 8, a command with reply 7, whatever the
      environment. */
  lemma RefusalsAreNamed(env: Env, cmd: byte, atyp: byte, ip4: bytes, port: Port, rest: bytes, output: bytes)
    requires |ip4| == 4
    ensures atyp !in {1, 3, 4} ==>
              ServerAnswer(env, Wire([5, cmd, 0, atyp] + rest, output)).wire.output == output + [5, 8, 0, 1, 0, 0, 0, 0, 0, 0]
    ensures cmd !in {1, 3} ==>
              ServerAnswer(env, Wire([5, cmd, 0, 1] + ip4 + U16(port) + rest, output)).wire.output
              == output + [5, 7, 0, 1, 0, 0, 0, 0, 0, 0]
  {
    ReadsExactly([5, cmd, 0, atyp], rest, output);
    assert [5, cmd, 0, 1] + ip4 + U16(port) + rest == [5, cmd, 0, 1] + (ip4 + U16(port) + rest);
    ReadsExactly([5, cmd, 0, 1], ip4 + U16(port) + rest, output);
    ReadsExactly(ip4 + U16(port), rest, output);
    hide ReadFull;
    ZeroReply(ADDR_UNSUPPORTED);
    ZeroReply(COMMAND_UNSUPPORTED);
  }

  lemma ZeroReply(rep: byte)
    ensures Reply(rep, NO_ADDR) == [5, rep, 0, 1, 0, 0, 0, 0, 0, 0]
  {
  }

  // ---- The tunnel gate ----

  /** With the gate shut nothing is connected, whatever the client sends, and neither resolver nor dialer has a part in what
      it is told: the outcome is the same for any of them. */
  lemma ShutGateConnectsNothing(auth: Option<Auth>, env: Env, other: Env, w: Wire)
    requires !env.gate && !other.gate && other.relay == env.relay
    ensures Serve(auth, env, w).Failed?
    ensures Serve(auth, env, w) == Serve(auth, other, w)
  {
    hide ServerHandshake, ServerRequest, Reply;
  }

  /** How a CONNECT is answered: reply 3 while the gate is shut or when dialing fails, 4 when the name does not resolve, and
      0 with the dialed connection's address exactly when the gate is open, the host is an address or resolves, and that
      address with the client's port can be dialed. */
  lemma ConnectIsAnswered(env: Env, a: AddrSpec, w: Wire)
    ensures var s := ServerConnect(env, a, w);
            && s.wire.input == w.input
            && (s.Got? <==> CanConnect(env, a))
            && (s.Got? ==> s.value == Connected(a))
            && s.wire.output == w.output +
                 (if CanConnect(env, a) then Reply(0, env.dial(Addr(Address(env, a).value, a.port)).value)
                  else if env.gate && Address(env, a).None? then Reply(4, NO_ADDR)
                  else Reply(3, NO_ADDR))
  {
    hide Reply;
  }

  /** The address of a host: itself, or what the tunnel's resolver says. */
  function Address(env: Env, a: AddrSpec): Option<bytes> {
    if a.host != [] then env.resolve(a.host) else Some(a.ip)
  }

  predicate CanConnect(env: Env, a: AddrSpec) {
    env.gate && Address(env, a).Some? && env.dial(Addr(Address(env, a).value, a.port)).Some?
  }

  // ---- The dialog ----

  /** The two byte streams of a finished dialog. Each end's reads and writes follow from what it read, so whatever the
      interleaving and the chunking, the streams satisfy both ends' equations. `up` and `down` are what the ends send
      after the dialog; an end whose part failed has closed the connection and sends nothing more. */
  ghost predicate Dialog(mine: Option<Auth>, t: Target, auth: Option<Auth>, env: Env, c2s: bytes, s2c: bytes, up: bytes, down: bytes) {
    var c := Dial(mine, t, Wire(s2c, []));
    var s := Serve(auth, env, Wire(c2s, []));
    && c2s == c.wire.output + up && (c.Failed? ==> up == [])
    && s2c == s.wire.output + down && (s.Failed? ==> down == [])
  }

  ghost predicate BoundsAddresses(env: Env) {
    forall a :: env.dial(a).Some? ==> |env.dial(a).value.ip| == 4 || |env.dial(a).value.ip| == 16
  }

  lemma AnswerOnlyAppends(env: Env, w: Wire)
    ensures w.output <= ServerAnswer(env, w).wire.output
  {
    hide Reply, ServerRequest, Dialed;
    RequestOnlyReads(w);
  }

  lemma RequestOnlyReads(w: Wire)
    ensures ServerRequest(w).wire.output == w.output
  {
  }

  lemma LoginOnlyAppends(auth: Auth, w: Wire)
    ensures w.output <= ServerLogin(auth, w).wire.output
  {
  }

  /** After a settled login, the request meets its decoder and the reply its reader. */
  lemma RequestDialog(t: Target, env: Env, ci: bytes, si: bytes, co: bytes, so: bytes, up: bytes, down: bytes)
    requires WellFormed(t) && |t.host| <= 255 && BoundsAddresses(env)
    requires var c, s := ClientRequest(t, Wire(ci, co)), ServerAnswer(env, Wire(si, so));
             co + si == c.wire.output + up && so + ci == s.wire.output + down && (s.Failed? ==> down == [])
    ensures var c, s := ClientRequest(t, Wire(ci, co)), ServerAnswer(env, Wire(si, so));
            var served := Dialed(env, Decoded(t)).0 == SUCCESS;
            && c.Got? == served && s.Got? == served
            && (served ==> c.wire.input == down && s == Got(Connected(Decoded(t)), s.wire) && s.wire.input == up)
  {
    hide ServerRequest, ClientReply, RequestOf, Reply, Dialed, Decoded;
    ReplyOnlyReads(Wire(ci, co + RequestOf(t)));
    CancelPrefix(co, si, RequestOf(t), up);
    RequestIsRead(t, up, so);
    var (rep, bound) := Dialed(env, Decoded(t));
    CancelPrefix(so, ci, Reply(rep, bound), down);
    BoundIsAddress(env, Decoded(t));
    ReplyIsRead(rep, bound, down, co + RequestOf(t));
  }

  lemma CancelPrefix(a: bytes, b: bytes, c: bytes, d: bytes)
    ensures a + b == a + c + d ==> b == c + d
  {
    if a + b == a + c + d {
      assert (a + b)[|a|..] == b && (a + c + d)[|a|..] == c + d;
    }
  }

  lemma BoundIsAddress(env: Env, a: AddrSpec)
    requires BoundsAddresses(env)
    ensures |Dialed(env, a).1.ip| == 4 || |Dialed(env, a).1.ip| == 16
  {
  }

  lemma ReplyOnlyReads(w: Wire)
    ensures ClientReply(w).wire.output == w.output
  {
  }

  /** The gate is open, the target is a literal or its host resolves, and dialing that address with the target's port
      succeeds. A target without literal and host is dialed at no address. */
  predicate CanReach(env: Env, t: Target) {
    && env.gate
    && match t.literal
       case Some(ip4) => env.dial(Addr(ip4, t.port)).Some?
       case None =>
         var ip := if t.host == [] then Some([]) else env.resolve(t.host);
         ip.Some? && env.dial(Addr(ip.value, t.port)).Some?
  }

  lemma DialedMeans(env: Env, t: Target)
    ensures Dialed(env, Decoded(t)).0 == SUCCESS <==> CanReach(env, t)
  {
  }

  /** The dialog succeeds exactly when the authentication settings agree and the server can reach the target. Then the
      server serves exactly the client's target, the client has consumed exactly the server's part of the stream,
      and the server exactly the client's. */
  lemma DialogSucceedsIff(mine: Option<Auth>, t: Target, auth: Option<Auth>, env: Env,
                          c2s: bytes, s2c: bytes, up: bytes, down: bytes)
    requires WellFormed(t) && |t.host| <= 255 && BoundsAddresses(env) && (mine.Some? ==> Short(mine.value))
    ensures Dialog(mine, t, auth, env, c2s, s2c, up, down) ==>
              var c, s := Dial(mine, t, Wire(s2c, [])), Serve(auth, env, Wire(c2s, []));
              && (c.Got? <==> mine == auth && CanReach(env, t))
              && (s.Got? <==> c.Got?)
              && (c.Got? ==> c.wire.input == down && s.wire.input == up && s.value == Connected(Decoded(t)))
  {
    hide ServerLogin, ServerAnswer, ServerHandshake, ClientRequest, RequestOf, LoginOf, Dialed, Decoded;
    var c, s := Dial(mine, t, Wire(s2c, [])), Serve(auth, env, Wire(c2s, []));
    var g := Greeting(mine);
    DialedMeans(env, t);
    if Dialog(mine, t, auth, env, c2s, s2c, up, down) {
      ClientOpens(mine, t, s2c);
      var rest := c.wire.output[|g|..] + up;
      assert c2s == g + rest;
      GreetingIsRead(mine, auth, rest);
      if mine.Some? != auth.Some? {
        assert s2c == [5, UNACCEPTABLE];
      } else {
        var open := [5, Method(auth)];
        ServerOpens(auth, env, Wire(c2s, []), Wire(rest, open));
        var back := s.wire.output[2..] + down;
        assert s2c == open + back;
        ReadsExactly(open, back, g);
        assert ClientGreet(mine, Wire(s2c, [])) == Got((), Wire(back, g));
        if mine.None? {
          RequestDialog(t, env, back, rest, g, open, up, down);
        } else {
          LoginDialog(mine.value, t, auth.value, env, back, rest, g, open, up, down);
        }
      }
    }
  }

  lemma ClientOpens(mine: Option<Auth>, t: Target, s2c: bytes)
    ensures Greeting(mine) <= Dial(mine, t, Wire(s2c, [])).wire.output
  {
    hide ClientRequest, Greeting, LoginOf;
    var greeted := ClientGreet(mine, Wire(s2c, []));
    assert greeted.wire.output == Greeting(mine);
    if mine.Some? {
      var login := ClientLogin(mine.value, greeted.wire);
      assert login.wire.output == Greeting(mine) + LoginOf(mine.value);
      RequestOnlyAppends(t, login.wire);
    } else {
      RequestOnlyAppends(t, greeted.wire);
    }
  }

  lemma ServerOpens(auth: Option<Auth>, env: Env, w: Wire, begun: Wire)
    requires ServerHandshake(auth, w) == if auth.Some? then ServerLogin(auth.value, begun) else Got((), begun)
    ensures begun.output <= Serve(auth, env, w).wire.output
  {
    hide ServerLogin, ServerAnswer, ServerHandshake;
    var h := ServerHandshake(auth, w);
    if auth.Some? { LoginOnlyAppends(auth.value, begun); }
    AnswerOnlyAppends(env, h.wire);
  }

  function ClientFromLogin(mine: Auth, t: Target, w: Wire): Read<()> {
    var (_, w) :- ClientLogin(mine, w);
    ClientRequest(t, w)
  }

  function ServerFromLogin(auth: Auth, env: Env, w: Wire): Read<Service> {
    var (_, w) :- ServerLogin(auth, w);
    ServerAnswer(env, w)
  }

  lemma LoginDialog(mine: Auth, t: Target, auth: Auth, env: Env, ci: bytes, si: bytes, co: bytes, so: bytes, up: bytes, down: bytes)
    requires WellFormed(t) && |t.host| <= 255 && BoundsAddresses(env) && Short(mine)
    requires var c, s := ClientFromLogin(mine, t, Wire(ci, co)), ServerFromLogin(auth, env, Wire(si, so));
             co + si == c.wire.output + up && so + ci == s.wire.output + down && (s.Failed? ==> down == [])
    ensures var c, s := ClientFromLogin(mine, t, Wire(ci, co)), ServerFromLogin(auth, env, Wire(si, so));
            var served := mine == auth && Dialed(env, Decoded(t)).0 == SUCCESS;
            && c.Got? == served && s.Got? == served
            && (served ==> c.wire.input == down && s == Got(Connected(Decoded(t)), s.wire) && s.wire.input == up)
  {
    hide ServerLogin, ServerAnswer, ClientRequest, LoginOf, RequestOf, Dialed, Decoded;
    var c, s := ClientFromLogin(mine, t, Wire(ci, co)), ServerFromLogin(auth, env, Wire(si, so));
    var l := LoginOf(mine);
    RequestOnlyAppends(t, ClientLogin(mine, Wire(ci, co)).wire);
    assert co + l <= c.wire.output;
    var rest := c.wire.output[|co + l|..] + up;
    assert co + si == co + l + rest;
    CancelPrefix(co, si, l, rest);
    LoginIsRead(mine, auth, rest, so);
    var st := if mine == auth then [1, 0] else [1, 1];
    if mine == auth { AnswerOnlyAppends(env, Wire(rest, so + st)); }
    var back := s.wire.output[|so + st|..] + down;
    assert so + ci == so + st + back;
    CancelPrefix(so, ci, st, back);
    ReadsExactly(st, back, co + l);
    if mine == auth {
      RequestDialog(t, env, back, rest, co + l, so + st, up, down);
    }
  }

  lemma RequestOnlyAppends(t: Target, w: Wire)
    ensures w.output <= ClientRequest(t, w).wire.output
  {
  }

  /** A server whose user name or password is longer than 255 bytes lets nobody in, whatever it reads. */
  lemma LongCredentialsAdmitNobody(auth: Auth, env: Env, w: Wire)
    requires !Short(auth)
    ensures var s := Serve(Some(auth), env, w);
            && s.Failed?
            && (s.wire.output == w.output || s.wire.output == w.output + [5, UNACCEPTABLE]
                || s.wire.output == w.output + [5, USER_PASS] || s.wire.output == w.output + [5, USER_PASS] + [1, 1])
  {
    hide ServerAnswer, ServerLogin;
    forall w ensures ServerLogin(auth, w).Failed? {
      LongLoginFails(auth, w);
    }
    var hdr := ReadFull(w, 2);
    if hdr.Got? {
      var methods := ReadFull(hdr.wire, hdr.value[1]);
      LongLoginFails(auth, Write(methods.wire, [5, USER_PASS]));
    }
  }

  lemma LongLoginFails(auth: Auth, w: Wire)
    requires !Short(auth)
    ensures var s := ServerLogin(auth, w);
            s.Failed? && (s.wire.output == w.output || s.wire.output == w.output + [1, 1])
  {
  }

  /** Shared credentials work exactly when their lengths fit in a byte. */
  lemma LongCredentialsNeverLogIn(a: Auth, t: Target, env: Env, c2s: bytes, s2c: bytes, up: bytes, down: bytes)
    requires !Short(a)
    ensures Dialog(Some(a), t, Some(a), env, c2s, s2c, up, down) ==>
              Dial(Some(a), t, Wire(s2c, [])).Failed? && Serve(Some(a), env, Wire(c2s, [])).Failed?
  {
    hide ServerHandshake, ServerAnswer, ClientRequest, LoginOf;
    LongCredentialsAdmitNobody(a, env, Wire(c2s, []));
    if Dialog(Some(a), t, Some(a), env, c2s, s2c, up, down) {
      assert |s2c| <= 4 && (|s2c| == 4 ==> s2c[3] == 1);
      var greeted := ClientGreet(Some(a), Wire(s2c, []));
      assert greeted.Got? ==> greeted.wire.input == s2c[2..];
    }
  }

  /** There is such a pair of streams for every client, server and environment. */
  lemma DialogExists(mine: Option<Auth>, t: Target, auth: Option<Auth>, env: Env)
    requires WellFormed(t) && |t.host| <= 255 && BoundsAddresses(env) && (mine.Some? ==> Short(mine.value))
    ensures exists c2s, s2c :: Dialog(mine, t, auth, env, c2s, s2c, [], [])
  {
    hide ServerLogin, ServerAnswer, ServerHandshake, ClientRequest, RequestOf, LoginOf, Dialed, Reply;
    var g, open := Greeting(mine), [5, Method(auth)];
    assert g + [] == [] + g == g;
    if mine.Some? != auth.Some? {
      GreetingIsRead(mine, auth, []);
      assert Dialog(mine, t, auth, env, g, [5, UNACCEPTABLE], [], []);
    } else {
      var (rep, bound) := Dialed(env, Decoded(t));
      var r, reply := RequestOf(t), Reply(rep, bound);
      if mine.None? {
        Answered(t, env, g, open);
        GreetingIsRead(mine, auth, r);
        ReadsExactly(open, reply, g);
        assert ClientGreet(mine, Wire(open + reply, [])) == Got((), Wire(reply, g));
        assert g + r + [] == g + r && open + reply + [] == open + reply;
        assert Dialog(mine, t, auth, env, g + r, open + reply, [], []);
      } else {
        var l := LoginOf(mine.value);
        if mine == auth {
          var st := [1, 0];
          Answered(t, env, g + l, open + st);
          GreetingIsRead(mine, auth, l + r);
          LoginIsRead(mine.value, auth.value, r, open);
          assert g + l + r == g + (l + r) && open + st + reply == open + (st + reply);
          ReadsExactly(open, st + reply, g);
          ReadsExactly(st, reply, g + l);
          assert ClientGreet(mine, Wire(open + (st + reply), [])) == Got((), Wire(st + reply, g));
          assert g + l + r + [] == g + l + r && open + st + reply + [] == open + st + reply;
          assert Dialog(mine, t, auth, env, g + l + r, open + st + reply, [], []);
        } else {
          var st := [1, 1];
          GreetingIsRead(mine, auth, l);
          assert l + [] == l && st + [] == st;
          LoginIsRead(mine.value, auth.value, [], open);
          ReadsExactly(open, st, g);
          ReadsExactly(st, [], g + l);
          assert Dialog(mine, t, auth, env, g + l, open + st, [], []);
        }
      }
    }
  }

  lemma Answered(t: Target, env: Env, co: bytes, so: bytes)
    requires WellFormed(t) && |t.host| <= 255 && BoundsAddresses(env)
    ensures var (rep, bound) := Dialed(env, Decoded(t));
            && ServerAnswer(env, Wire(RequestOf(t), so)).wire.output == so + Reply(rep, bound)
            && ClientRequest(t, Wire(Reply(rep, bound), co)).wire.output == co + RequestOf(t)
  {
    hide RequestOf, ServerRequest, Dialed, Reply, Decoded;
    assert RequestOf(t) + [] == RequestOf(t);
    RequestIsRead(t, [], so);
    var (rep, bound) := Dialed(env, Decoded(t));
    ReplyOnlyReads(Wire(Reply(rep, bound), co + RequestOf(t)));
  }
}
