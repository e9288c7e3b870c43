/** The two ends of the SOCKS5 dialog, reading and writing a connection step by step. */
module SocksPeers {
  import opened Wrappers
  import opened Socks
  import D = SocksDialog

  /** A connection; a failed read consumes what was left. */
  class Conn {
    var input: bytes
    var output: bytes

    ghost function At(): D.Wire
      reads this
    {
      D.Wire(input, output)
    }

    constructor (input: bytes)
      ensures At() == D.Wire(input, [])
    {
      this.input, output := input, [];
    }

    method ReadFull(n: nat) returns (r: Result<bytes, D.Error>)
      modifies this`input
      ensures Same(D.ReadFull(old(At()), n), r, At())
    {
      if n <= |input| {
        r, input := Ok(input[..n]), input[n..];
      } else {
        r, input := Err(D.EndOfInput), [];
      }
    }

    method Write(data: bytes)
      modifies this`output
      ensures At() == D.Write(old(At()), data)
    {
      output := output + data;
    }
  }

  /** A method's result, with the connection it leaves, is that of its specification. */
  ghost predicate Same<T(!new)>(spec: D.Read<T>, r: Result<T, D.Error>, w: D.Wire) {
    match spec
    case Got(v, w') => r == Ok(v) && w == w'
    case Failed(error, w') => r == Err(error) && w == w'
  }

  method ReadHandshake(auth: Option<D.Auth>, conn: Conn) returns (r: Result<(), D.Error>)
    modifies conn
    ensures Same(D.ServerHandshake(auth, old(conn.At())), r, conn.At())
  {
    hide D.ServerLogin, D.ReadFull;
    var hdr :- conn.ReadFull(2);
    if hdr[0] != 5 {
      return Err(D.WrongVersion);
    }
    var methods :- conn.ReadFull(hdr[1]);
    var want := D.NO_AUTH;
    if auth.Some? {
      want := D.USER_PASS;
    }
    for i := 0 to |methods|
      invariant want !in methods[..i]
      invariant conn.At() == D.ReadFull(D.ReadFull(old(conn.At()), 2).wire, hdr[1]).wire
    {
      if methods[i] == want {
        conn.Write([5, want]);
        if auth.Some? {
          r := VerifyUserPass(auth.value, conn);
          return;
        }
        return Ok(());
      }
    }
    conn.Write([5, D.UNACCEPTABLE]);
    return Err(D.NoMethod);
  }

  method VerifyUserPass(auth: D.Auth, conn: Conn) returns (r: Result<(), D.Error>)
    modifies conn
    ensures Same(D.ServerLogin(auth, old(conn.At())), r, conn.At())
  {
    hide D.ReadFull;
    var hdr :- conn.ReadFull(2);
    if hdr[0] != 1 {
      return Err(D.WrongVersion);
    }
    var uname :- conn.ReadFull(hdr[1]);
    var plen :- conn.ReadFull(1);
    var passwd :- conn.ReadFull(plen[0]);
    if uname != auth.username || passwd != auth.password {
      conn.Write([1, 1]);
      return Err(D.BadCredentials);
    }
    conn.Write([1, 0]);
    return Ok(());
  }

  method ReadRequest(conn: Conn) returns (r: Result<(byte, D.AddrSpec), D.Error>)
    modifies conn
    ensures Same(D.ServerRequest(old(conn.At())), r, conn.At())
  {
    hide D.ReadFull, D.ServerAddr;
    var hdr :- conn.ReadFull(4);
    if hdr[0] != 5 {
      return Err(D.WrongVersion);
    }
    var addr :- ReadAddr(conn, hdr[3]);
    return Ok((hdr[1], addr));
  }

  method ReadAddr(conn: Conn, atyp: byte) returns (r: Result<D.AddrSpec, D.Error>)
    modifies conn
    ensures Same(D.ServerAddr(old(conn.At()), atyp), r, conn.At())
  {
    hide D.ReadFull;
    if atyp == IPV4 {
      var buf :- conn.ReadFull(6);
      return Ok(D.AddrSpec([], buf[..4], FromU16(buf[4], buf[5])));
    } else if atyp == IPV6 {
      var buf :- conn.ReadFull(18);
      return Ok(D.AddrSpec([], buf[..16], FromU16(buf[16], buf[17])));
    } else if atyp == DOMAIN {
      var l :- conn.ReadFull(1);
      var buf :- conn.ReadFull(l[0] as int + 2);
      return Ok(D.AddrSpec(buf[..l[0]], [], FromU16(buf[l[0]], buf[l[0] + 1])));
    }
    return Err(D.AddrUnsupported);
  }

  /** `bound` is absent where the server has no outgoing connection to name. */
  method WriteReply(conn: Conn, rep: byte, bound: Option<Addr>)
    modifies conn
    ensures conn.At() == D.Write(old(conn.At()), D.Reply(rep, if bound.Some? then bound.value else D.NO_ADDR))
  {
    var ip, port := [0, 0, 0, 0], 0;
    if bound.Some? {
      ip, port := bound.value.ip, bound.value.port;
    }
    var atyp, raw := IPV4, To4(ip);
    if raw.None? {
      atyp, raw := IPV6, Some(To16(ip));
    }
    conn.Write([5, rep, 0, atyp] + raw.value + U16(port));
  }

  method HandleConnect(env: D.Env, conn: Conn, addr: D.AddrSpec) returns (r: Result<D.Service, D.Error>)
    modifies conn
    ensures Same(D.ServerConnect(env, addr, old(conn.At())), r, conn.At())
  {
    if !env.gate {
      WriteReply(conn, D.NETWORK_UNREACHABLE, None);
      return Err(D.Refused(D.NETWORK_UNREACHABLE));
    }
    var ip := Some(addr.ip);
    if addr.host != [] {
      ip := env.resolve(addr.host);
    }
    if ip.None? {
      WriteReply(conn, D.HOST_UNREACHABLE, None);
      return Err(D.Refused(D.HOST_UNREACHABLE));
    }
    var out := env.dial(Addr(ip.value, addr.port));
    if out.None? {
      WriteReply(conn, D.NETWORK_UNREACHABLE, None);
      return Err(D.Refused(D.NETWORK_UNREACHABLE));
    }
    WriteReply(conn, D.SUCCESS, out);
    return Ok(D.Connected(addr));
  }

  method HandleUDPAssociate(env: D.Env, conn: Conn) returns (r: Result<D.Service, D.Error>)
    modifies conn
    ensures Same(D.ServerAssociate(env, old(conn.At())), r, conn.At())
  {
    if !env.gate {
      WriteReply(conn, D.NETWORK_UNREACHABLE, None);
      return Err(D.Refused(D.NETWORK_UNREACHABLE));
    }
    if env.relay.None? {
      WriteReply(conn, D.GENERAL_FAILURE, None);
      return Err(D.Refused(D.GENERAL_FAILURE));
    }
    WriteReply(conn, D.SUCCESS, Some(Addr([0, 0, 0, 0], env.relay.value)));
    return Ok(D.Associated);
  }

  method Handle(auth: Option<D.Auth>, env: D.Env, conn: Conn) returns (r: Result<D.Service, D.Error>)
    modifies conn
    ensures Same(D.Serve(auth, env, old(conn.At())), r, conn.At())
  {
    hide D.ServerHandshake, D.ServerRequest, D.ServerConnect, D.ServerAssociate, D.Reply;
    var _ :- ReadHandshake(auth, conn);
    var request := ReadRequest(conn);
    if request.Err? {
      if request.error == D.AddrUnsupported {
        WriteReply(conn, D.ADDR_UNSUPPORTED, None);
      }
      return Err(request.error);
    }
    var (cmd, addr) := request.value;
    if cmd == D.CONNECT {
      r := HandleConnect(env, conn, addr);
    } else if cmd == D.UDP_ASSOCIATE {
      r := HandleUDPAssociate(env, conn);
    } else {
      WriteReply(conn, D.COMMAND_UNSUPPORTED, None);
      r := Err(D.Refused(D.COMMAND_UNSUPPORTED));
    }
  }

  method SocksDialVia(conn: Conn, auth: Option<D.Auth>, target: D.Target) returns (r: Result<(), D.Error>)
    modifies conn
    ensures Same(D.Dial(auth, target, old(conn.At())), r, conn.At())
  {
    hide D.ClientReply, D.ReadFull, D.RequestOf;
    var m := D.NO_AUTH;
    if auth.Some? {
      m := D.USER_PASS;
    }
    conn.Write([5, 1, m]);
    var resp :- conn.ReadFull(2);
    if resp[1] != m {
      return Err(D.NoMethod);
    }
    if auth.Some? {
      var _ :- Login(conn, auth.value);
    }
    WriteRequest(conn, target);
    r := ReadReply(conn);
  }

  method Login(conn: Conn, auth: D.Auth) returns (r: Result<(), D.Error>)
    modifies conn
    ensures Same(D.ClientLogin(auth, old(conn.At())), r, conn.At())
  {
    hide D.ReadFull;
    var req := [1, D.Len(auth.username)];
    req := req + auth.username;
    req := req + [D.Len(auth.password)];
    req := req + auth.password;
    conn.Write(req);
    var st :- conn.ReadFull(2);
    if st[1] != 0 {
      return Err(D.BadCredentials);
    }
    return Ok(());
  }

  method WriteRequest(conn: Conn, target: D.Target)
    modifies conn
    ensures conn.At() == D.Write(old(conn.At()), D.RequestOf(target))
  {
    var req := [5, 1, 0];
    if target.literal.Some? {
      req := req + [1];
      req := req + target.literal.value;
    } else {
      req := req + [3, D.Len(target.host)];
      req := req + target.host;
    }
    req := req + U16(target.port);
    assert req == D.RequestOf(target);
    conn.Write(req);
  }

  method ReadReply(conn: Conn) returns (r: Result<(), D.Error>)
    modifies conn
    ensures Same(D.ClientReply(old(conn.At())), r, conn.At())
  {
    hide D.ReadFull;
    var reply :- conn.ReadFull(4);
    if reply[1] != 0 {
      return Err(D.Refused(reply[1]));
    }
    if reply[3] == IPV4 {
      var _ :- conn.ReadFull(6);
    } else if reply[3] == IPV6 {
      var _ :- conn.ReadFull(18);
    } else if reply[3] == DOMAIN {
      var l :- conn.ReadFull(1);
      var _ :- conn.ReadFull(l[0] as int + 2);
    }
    return Ok(());
  }
}
