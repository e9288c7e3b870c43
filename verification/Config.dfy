/** The agent's declarative configuration: validation, redaction for the API, and its JSON form. */
module Config {
  import opened Wrappers
  import opened JsonPatch

  /** Go's int: the width that a decoded number must fit. */
  type Int64 = i: int | -0x8000_0000_0000_0000 <= i < 0x8000_0000_0000_0000

  datatype Protections = Protections(ads: bool, trackers: bool, malicious: bool, adult: bool)

  datatype ExpressVPN = ExpressVPN(location: string, protocol: string, autoconnect: bool, protections: Protections)

  datatype Socks5 = Socks5(host: string, port: Int64, username: string, password: string, udp: string)

  datatype Uplink = Uplink(mode: string, socks5: Socks5)

  datatype ProxyAuth = ProxyAuth(username: string, password: string)

  datatype Proxy = Proxy(auth: Option<ProxyAuth>)

  datatype Config = Config(expressvpn: ExpressVPN, uplink: Uplink, proxy: Proxy)

  const ZERO := Config(ExpressVPN("", "", false, Protections(false, false, false, false)),
                       Uplink("", Socks5("", 0, "", "", "")), Proxy(None))

  const DEFAULT := ZERO.(expressvpn := ZERO.expressvpn.(protocol := "auto"),
                         uplink := Uplink("host", ZERO.uplink.socks5.(udp := "auto")))

  const KNOWN_PROTOCOLS := {"auto", "lightway_udp", "lightway_tcp", "openvpn_udp", "openvpn_tcp", "wireguard"}

  /** The field at fault, or None for a valid configuration. */
  function Validate(c: Config): Option<string> {
    if c.expressvpn.protocol !in KNOWN_PROTOCOLS then Some("expressvpn.protocol")
    else if c.uplink.mode != "host" && c.uplink.mode != "socks5" then Some("uplink.mode")
    else if c.uplink.mode == "socks5" && c.uplink.socks5.host == "" then Some("uplink.socks5.host")
    else if c.uplink.mode == "socks5" && !(1 <= c.uplink.socks5.port <= 65535) then Some("uplink.socks5.port")
    else if c.uplink.socks5.udp !in {"auto", "on", "off"} then Some("uplink.socks5.udp")
    else if c.proxy.auth.Some? && (c.proxy.auth.value.username == "" || c.proxy.auth.value.password == "") then Some("proxy.auth")
    else None
  }

  predicate Valid(c: Config) {
    Validate(c).None?
  }

  function Masked(password: string): string {
    if password != "" then MASK else password
  }

  function Redacted(c: Config): Config {
    c.(uplink := c.uplink.(socks5 := c.uplink.socks5.(password := Masked(c.uplink.socks5.password))),
       proxy := Proxy(match c.proxy.auth
                      case None => None
                      case Some(a) => Some(a.(password := Masked(a.password)))))
  }

  /** What a valid configuration is, and that the field named for an invalid one is at fault. */
  lemma ValidIff(c: Config)
    ensures Valid(c) <==>
            && c.expressvpn.protocol in {"auto", "lightway_udp", "lightway_tcp", "openvpn_udp", "openvpn_tcp", "wireguard"}
            && c.uplink.mode in {"host", "socks5"} && c.uplink.socks5.udp in {"auto", "on", "off"}
            && (c.uplink.mode == "socks5" ==> c.uplink.socks5.host != "" && 1 <= c.uplink.socks5.port <= 65535)
            && (c.proxy.auth.Some? ==> c.proxy.auth.value.username != "" && c.proxy.auth.value.password != "")
    ensures Validate(c) == Some("expressvpn.protocol") ==> c.expressvpn.protocol !in KNOWN_PROTOCOLS
    ensures Validate(c) == Some("uplink.mode") ==> c.uplink.mode !in {"host", "socks5"}
    ensures Validate(c) == Some("uplink.socks5.host") ==> c.uplink.mode == "socks5" && c.uplink.socks5.host == ""
    ensures Validate(c) == Some("uplink.socks5.port") ==> c.uplink.mode == "socks5" && !(1 <= c.uplink.socks5.port <= 65535)
    ensures Validate(c) == Some("uplink.socks5.udp") ==> c.uplink.socks5.udp !in {"auto", "on", "off"}
    ensures Validate(c) == Some("proxy.auth") ==>
              c.proxy.auth.Some? && (c.proxy.auth.value.username == "" || c.proxy.auth.value.password == "")
  {
    var faults := ["expressvpn.protocol", "uplink.mode", "uplink.socks5.host", "uplink.socks5.port", "uplink.socks5.udp", "proxy.auth"];
    assert |faults[0]| == 19 && |faults[1]| == 11 && |faults[5]| == 10 && |faults[4]| == 17;
    assert faults[2][14] != faults[3][14];
  }

  /** A password as the API shows it: whether there is one, and no more. */
  predicate ShownFor(shown: string, password: string) {
    shown == if password == "" then "" else "***"
  }

  /** The redacted form keeps everything but the two passwords, of which it shows only whether they are empty. */
  lemma RedactedMeans(c: Config)
    ensures var r := Redacted(c);
            && r.expressvpn == c.expressvpn && r.uplink.mode == c.uplink.mode
            && r.uplink.socks5.host == c.uplink.socks5.host && r.uplink.socks5.port == c.uplink.socks5.port
            && r.uplink.socks5.username == c.uplink.socks5.username && r.uplink.socks5.udp == c.uplink.socks5.udp
            && ShownFor(r.uplink.socks5.password, c.uplink.socks5.password)
            && (r.proxy.auth.Some? <==> c.proxy.auth.Some?)
            && (c.proxy.auth.Some? ==>
                  && r.proxy.auth.value.username == c.proxy.auth.value.username
                  && ShownFor(r.proxy.auth.value.password, c.proxy.auth.value.password))
  {
  }

  /** The two differ at most in passwords that neither leaves empty. */
  predicate SameButSecrets(c: Config, d: Config) {
    && c.expressvpn == d.expressvpn && c.uplink.mode == d.uplink.mode
    && c.uplink.socks5.(password := "") == d.uplink.socks5.(password := "")
    && (c.uplink.socks5.password == "" <==> d.uplink.socks5.password == "")
    && (c.proxy.auth.Some? <==> d.proxy.auth.Some?)
    && (c.proxy.auth.Some? ==>
          && c.proxy.auth.value.username == d.proxy.auth.value.username
          && (c.proxy.auth.value.password == "" <==> d.proxy.auth.value.password == ""))
  }

  /** So nothing about a password but its emptiness can be told from what the API shows. */
  lemma SecretsDoNotShow(c: Config, d: Config)
    requires SameButSecrets(c, d)
    ensures Redacted(c) == Redacted(d) && Encode(Redacted(c)) == Encode(Redacted(d))
  {
    RedactedMeans(c);
    RedactedMeans(d);
    hide Encode;
    var r, q := Redacted(c), Redacted(d);
    assert r.uplink.socks5 == q.uplink.socks5;
    assert r.proxy.auth == q.proxy.auth;
  }

  // ---------- JSON ----------

  function EncodeProtections(p: Protections): Json {
    Obj(map["ads" := Bool(p.ads), "trackers" := Bool(p.trackers), "malicious" := Bool(p.malicious), "adult" := Bool(p.adult)])
  }

  function EncodeExpressVPN(e: ExpressVPN): Json {
    Obj(map["location" := Str(e.location), "protocol" := Str(e.protocol), "autoconnect" := Bool(e.autoconnect),
            "protections" := EncodeProtections(e.protections)])
  }

  function EncodeSocks5(s: Socks5): Json {
    Obj(map["host" := Str(s.host), "port" := Num(s.port as real), "username" := Str(s.username),
            "password" := Str(s.password), "udp" := Str(s.udp)])
  }

  function EncodeUplink(u: Uplink): Json {
    Obj(map["mode" := Str(u.mode), "socks5" := EncodeSocks5(u.socks5)])
  }

  function EncodeAuth(auth: Option<ProxyAuth>): Json {
    match auth
    case None => Null
    case Some(a) => Obj(map["username" := Str(a.username), "password" := Str(a.password)])
  }

  function EncodeProxy(p: Proxy): Json {
    Obj(map["auth" := EncodeAuth(p.auth)])
  }

  function Encode(c: Config): (j: Json)
    ensures j.Obj?
  {
    Obj(map["expressvpn" := EncodeExpressVPN(c.expressvpn), "uplink" := EncodeUplink(c.uplink), "proxy" := EncodeProxy(c.proxy)])
  }

  // Go decodes into an existing value: an absent member, and a null for anything but a pointer, leave it as it was.

  function DecodeStr(was: string, v: Option<Json>): Option<string> {
    match v
    case None => Some(was)
    case Some(Null) => Some(was)
    case Some(Str(s)) => Some(s)
    case Some(_) => None
  }

  function DecodeBool(was: bool, v: Option<Json>): Option<bool> {
    match v
    case None => Some(was)
    case Some(Null) => Some(was)
    case Some(Bool(b)) => Some(b)
    case Some(_) => None
  }

  function DecodeInt(was: Int64, v: Option<Json>): Option<Int64> {
    match v
    case None => Some(was)
    case Some(Null) => Some(was)
    case Some(Num(n)) =>
      var i := n.Floor;
      if i as real == n && -0x8000_0000_0000_0000 <= i < 0x8000_0000_0000_0000 then Some(i) else None
    case Some(_) => None
  }

  /** The members a struct is decoded from; None for a value that is neither object nor null, or, when strict, has other keys. */
  function StructFields(v: Option<Json>, known: set<string>, strict: bool): Option<Fields> {
    match v
    case None => Some(map[])
    case Some(Null) => Some(map[])
    case Some(Obj(fields)) => if strict && !(fields.Keys <= known) then None else Some(fields)
    case Some(_) => None
  }

  function DecodeProtections(was: Protections, v: Option<Json>, strict: bool): Option<Protections> {
    match StructFields(v, {"ads", "trackers", "malicious", "adult"}, strict)
    case None => None
    case Some(f) =>
      match (DecodeBool(was.ads, Get(f, "ads")), DecodeBool(was.trackers, Get(f, "trackers")),
             DecodeBool(was.malicious, Get(f, "malicious")), DecodeBool(was.adult, Get(f, "adult")))
      case (Some(a), Some(t), Some(m), Some(d)) => Some(Protections(a, t, m, d))
      case _ => None
  }

  function DecodeExpressVPN(was: ExpressVPN, v: Option<Json>, strict: bool): Option<ExpressVPN> {
    match StructFields(v, {"location", "protocol", "autoconnect", "protections"}, strict)
    case None => None
    case Some(f) =>
      match (DecodeStr(was.location, Get(f, "location")), DecodeStr(was.protocol, Get(f, "protocol")),
             DecodeBool(was.autoconnect, Get(f, "autoconnect")),
             DecodeProtections(was.protections, Get(f, "protections"), strict))
      case (Some(l), Some(p), Some(a), Some(pr)) => Some(ExpressVPN(l, p, a, pr))
      case _ => None
  }

  function DecodeSocks5(was: Socks5, v: Option<Json>, strict: bool): Option<Socks5> {
    match StructFields(v, {"host", "port", "username", "password", "udp"}, strict)
    case None => None
    case Some(f) =>
      match (DecodeStr(was.host, Get(f, "host")), DecodeInt(was.port, Get(f, "port")),
             DecodeStr(was.username, Get(f, "username")), DecodeStr(was.password, Get(f, "password")),
             DecodeStr(was.udp, Get(f, "udp")))
      case (Some(h), Some(p), Some(u), Some(w), Some(m)) => Some(Socks5(h, p, u, w, m))
      case _ => None
  }

  function DecodeUplink(was: Uplink, v: Option<Json>, strict: bool): Option<Uplink> {
    match StructFields(v, {"mode", "socks5"}, strict)
    case None => None
    case Some(f) =>
      match (DecodeStr(was.mode, Get(f, "mode")), DecodeSocks5(was.socks5, Get(f, "socks5"), strict))
      case (Some(m), Some(s)) => Some(Uplink(m, s))
      case _ => None
  }

  /** A null pointer member becomes nil; an object fills the value pointed to, or a zero one. */
  function DecodeAuth(was: Option<ProxyAuth>, v: Option<Json>, strict: bool): Option<Option<ProxyAuth>> {
    match v
    case None => Some(was)
    case Some(Null) => Some(None)
    case Some(_) =>
      var base := if was.Some? then was.value else ProxyAuth("", "");
      match StructFields(v, {"username", "password"}, strict)
      case None => None
      case Some(f) =>
        match (DecodeStr(base.username, Get(f, "username")), DecodeStr(base.password, Get(f, "password")))
        case (Some(u), Some(p)) => Some(Some(ProxyAuth(u, p)))
        case _ => None
  }

  function DecodeProxy(was: Proxy, v: Option<Json>, strict: bool): Option<Proxy> {
    match StructFields(v, {"auth"}, strict)
    case None => None
    case Some(f) =>
      match DecodeAuth(was.auth, Get(f, "auth"), strict)
      case Some(a) => Some(Proxy(a))
      case None => None
  }

  function Decode(was: Config, j: Json, strict: bool): Option<Config> {
    match StructFields(Some(j), {"expressvpn", "uplink", "proxy"}, strict)
    case None => None
    case Some(f) =>
      match (DecodeExpressVPN(was.expressvpn, Get(f, "expressvpn"), strict), DecodeUplink(was.uplink, Get(f, "uplink"), strict),
             DecodeProxy(was.proxy, Get(f, "proxy"), strict))
      case (Some(e), Some(u), Some(p)) => Some(Config(e, u, p))
      case _ => None
  }

  lemma DecodeEncodeProtections(was: Protections, p: Protections, strict: bool)
    ensures DecodeProtections(was, Some(EncodeProtections(p)), strict) == Some(p)
  {
  }

  lemma DecodeEncodeExpressVPN(was: ExpressVPN, e: ExpressVPN, strict: bool)
    ensures DecodeExpressVPN(was, Some(EncodeExpressVPN(e)), strict) == Some(e)
  {
    assert "location"[0] != "protocol"[0];
    DecodeEncodeProtections(was.protections, e.protections, strict);
  }

  lemma DecodeEncodeSocks5(was: Socks5, s: Socks5, strict: bool)
    ensures DecodeSocks5(was, Some(EncodeSocks5(s)), strict) == Some(s)
  {
    assert (s.port as real).Floor == s.port;
    assert "host"[0] != "port"[0] && "username"[0] != "password"[0];
  }

  lemma DecodeEncodeUplink(was: Uplink, u: Uplink, strict: bool)
    ensures DecodeUplink(was, Some(EncodeUplink(u)), strict) == Some(u)
  {
    DecodeEncodeSocks5(was.socks5, u.socks5, strict);
  }

  lemma DecodeEncodeProxy(was: Proxy, p: Proxy, strict: bool)
    ensures DecodeProxy(was, Some(EncodeProxy(p)), strict) == Some(p)
  {
    assert "username"[0] != "password"[0];
  }

  /** A written configuration reads back as itself, whatever it is decoded over. */
  lemma DecodeEncode(was: Config, c: Config, strict: bool)
    ensures Decode(was, Encode(c), strict) == Some(c)
  {
    DecodeEncodeExpressVPN(was.expressvpn, c.expressvpn, strict);
    DecodeEncodeUplink(was.uplink, c.uplink, strict);
    DecodeEncodeProxy(was.proxy, c.proxy, strict);
    hide DecodeExpressVPN, DecodeUplink, DecodeProxy, EncodeExpressVPN, EncodeUplink, EncodeProxy;
  }

  // What decoding reads, by the names in the JSON text.

  predicate ReadsStr(v: Option<Json>, was: string, now: string) {
    match v
    case Some(Str(s)) => now == s
    case Some(Null) => now == was
    case None => now == was
    case _ => false
  }

  predicate ReadsBool(v: Option<Json>, was: bool, now: bool) {
    match v
    case Some(Bool(b)) => now == b
    case Some(Null) => now == was
    case None => now == was
    case _ => false
  }

  predicate ReadsInt(v: Option<Json>, was: Int64, now: Int64) {
    match v
    case Some(Num(n)) => now as real == n
    case Some(Null) => now == was
    case None => now == was
    case _ => false
  }

  lemma AtNames(j: Json, a: string, b: string, c: string)
    ensures At(Some(j), [a]) == Get(FieldsOf(Some(j)), a)
    ensures At(Some(j), [a, b]) == Get(FieldsOf(At(Some(j), [a])), b)
    ensures At(Some(j), [a, b, c]) == Get(FieldsOf(At(Some(j), [a, b])), c)
  {
    assert [a][1..] == [] && [a, b][1..] == [b] && [b][1..] == [] && [a, b, c][1..] == [b, c] && [b, c][1..] == [c] && [c][1..] == [];
    var v := Get(FieldsOf(Some(j)), a);
    assert At(v, []) == v && At(Some(j), [a]) == At(v, []);
    assert At(Some(j), [a, b]) == At(v, [b]) == At(Get(FieldsOf(v), b), []);
    var u := Get(FieldsOf(v), b);
    assert At(Some(j), [a, b, c]) == At(v, [b, c]) == At(u, [c]) == At(Get(FieldsOf(u), c), []);
  }

  /** The three parts are decoded from the members of their names. */
  lemma DecodeParts(was: Config, j: Json, strict: bool, c: Config)
    requires Decode(was, j, strict) == Some(c)
    ensures DecodeExpressVPN(was.expressvpn, At(Some(j), ["expressvpn"]), strict) == Some(c.expressvpn)
    ensures DecodeUplink(was.uplink, At(Some(j), ["uplink"]), strict) == Some(c.uplink)
    ensures DecodeProxy(was.proxy, At(Some(j), ["proxy"]), strict) == Some(c.proxy)
    ensures strict ==> OnlyKeys(Some(j), {"expressvpn", "uplink", "proxy"})
  {
    hide At, DecodeExpressVPN, DecodeUplink, DecodeProxy;
    AtNames(j, "expressvpn", "", "");
    AtNames(j, "uplink", "", "");
    AtNames(j, "proxy", "", "");
  }

  lemma PartsExpressVPN(was: ExpressVPN, v: Option<Json>, strict: bool, e: ExpressVPN)
    requires DecodeExpressVPN(was, v, strict) == Some(e)
    ensures DecodeProtections(was.protections, Get(FieldsOf(v), "protections"), strict) == Some(e.protections)
  {
    hide DecodeProtections, DecodeStr, DecodeBool;
  }

  lemma ReadsProtections(was: Protections, v: Option<Json>, strict: bool, p: Protections)
    requires DecodeProtections(was, v, strict) == Some(p)
    ensures ReadsBool(Get(FieldsOf(v), "ads"), was.ads, p.ads)
    ensures ReadsBool(Get(FieldsOf(v), "trackers"), was.trackers, p.trackers)
    ensures ReadsBool(Get(FieldsOf(v), "malicious"), was.malicious, p.malicious)
    ensures ReadsBool(Get(FieldsOf(v), "adult"), was.adult, p.adult)
  {
  }

  lemma PartsUplink(was: Uplink, v: Option<Json>, strict: bool, u: Uplink)
    requires DecodeUplink(was, v, strict) == Some(u)
    ensures ReadsStr(Get(FieldsOf(v), "mode"), was.mode, u.mode)
    ensures DecodeSocks5(was.socks5, Get(FieldsOf(v), "socks5"), strict) == Some(u.socks5)
  {
    hide DecodeSocks5;
  }

  lemma ReadsSocks5(was: Socks5, v: Option<Json>, strict: bool, s: Socks5)
    requires DecodeSocks5(was, v, strict) == Some(s)
    ensures ReadsStr(Get(FieldsOf(v), "host"), was.host, s.host)
    ensures ReadsInt(Get(FieldsOf(v), "port"), was.port, s.port)
    ensures ReadsStr(Get(FieldsOf(v), "username"), was.username, s.username)
    ensures ReadsStr(Get(FieldsOf(v), "password"), was.password, s.password)
    ensures ReadsStr(Get(FieldsOf(v), "udp"), was.udp, s.udp)
  {
  }

  lemma ReadsProxy(was: Proxy, v: Option<Json>, strict: bool, p: Proxy)
    requires DecodeProxy(was, v, strict) == Some(p)
    ensures var auth := Get(FieldsOf(v), "auth");
            match auth
            case None => p.auth == was.auth
            case Some(Null) => p.auth == None
            case Some(_) =>
              var base := if was.auth.Some? then was.auth.value else ProxyAuth("", "");
              && p.auth.Some?
              && ReadsStr(Get(FieldsOf(auth), "username"), base.username, p.auth.value.username)
              && ReadsStr(Get(FieldsOf(auth), "password"), base.password, p.auth.value.password)
  {
  }

  /** Every member that is there sets its field, every other field stays as it was. */
  lemma DecodeReadsExpressVPN(was: Config, j: Json, strict: bool, c: Config)
    requires Decode(was, j, strict) == Some(c)
    ensures ReadsStr(At(Some(j), ["expressvpn", "location"]), was.expressvpn.location, c.expressvpn.location)
    ensures ReadsStr(At(Some(j), ["expressvpn", "protocol"]), was.expressvpn.protocol, c.expressvpn.protocol)
    ensures ReadsBool(At(Some(j), ["expressvpn", "autoconnect"]), was.expressvpn.autoconnect, c.expressvpn.autoconnect)
  {
    hide Decode, DecodeProtections, At;
    DecodeParts(was, j, strict, c);
    AtNames(j, "expressvpn", "location", "");
    AtNames(j, "expressvpn", "protocol", "");
    AtNames(j, "expressvpn", "autoconnect", "");
  }

  lemma DecodeReadsProtections(was: Config, j: Json, strict: bool, c: Config)
    requires Decode(was, j, strict) == Some(c)
    ensures ReadsBool(At(Some(j), ["expressvpn", "protections", "ads"]), was.expressvpn.protections.ads, c.expressvpn.protections.ads)
    ensures ReadsBool(At(Some(j), ["expressvpn", "protections", "trackers"]), was.expressvpn.protections.trackers, c.expressvpn.protections.trackers)
    ensures ReadsBool(At(Some(j), ["expressvpn", "protections", "malicious"]), was.expressvpn.protections.malicious, c.expressvpn.protections.malicious)
    ensures ReadsBool(At(Some(j), ["expressvpn", "protections", "adult"]), was.expressvpn.protections.adult, c.expressvpn.protections.adult)
  {
    hide Decode, At, DecodeExpressVPN, ReadsBool;
    DecodeParts(was, j, strict, c);
    PartsExpressVPN(was.expressvpn, At(Some(j), ["expressvpn"]), strict, c.expressvpn);
    AtNames(j, "expressvpn", "protections", "ads");
    AtNames(j, "expressvpn", "protections", "trackers");
    AtNames(j, "expressvpn", "protections", "malicious");
    AtNames(j, "expressvpn", "protections", "adult");
    ReadsProtections(was.expressvpn.protections, At(Some(j), ["expressvpn", "protections"]), strict, c.expressvpn.protections);
  }

  lemma DecodeReadsUplink(was: Config, j: Json, strict: bool, c: Config)
    requires Decode(was, j, strict) == Some(c)
    ensures ReadsStr(At(Some(j), ["uplink", "mode"]), was.uplink.mode, c.uplink.mode)
    ensures ReadsStr(At(Some(j), ["uplink", "socks5", "host"]), was.uplink.socks5.host, c.uplink.socks5.host)
    ensures ReadsInt(At(Some(j), ["uplink", "socks5", "port"]), was.uplink.socks5.port, c.uplink.socks5.port)
    ensures ReadsStr(At(Some(j), ["uplink", "socks5", "username"]), was.uplink.socks5.username, c.uplink.socks5.username)
    ensures ReadsStr(At(Some(j), ["uplink", "socks5", "password"]), was.uplink.socks5.password, c.uplink.socks5.password)
    ensures ReadsStr(At(Some(j), ["uplink", "socks5", "udp"]), was.uplink.socks5.udp, c.uplink.socks5.udp)
  {
    hide Decode, At, DecodeUplink, ReadsStr, ReadsInt;
    DecodeParts(was, j, strict, c);
    PartsUplink(was.uplink, At(Some(j), ["uplink"]), strict, c.uplink);
    AtNames(j, "uplink", "mode", "");
    AtNames(j, "uplink", "socks5", "host");
    AtNames(j, "uplink", "socks5", "port");
    AtNames(j, "uplink", "socks5", "username");
    AtNames(j, "uplink", "socks5", "password");
    AtNames(j, "uplink", "socks5", "udp");
    ReadsSocks5(was.uplink.socks5, At(Some(j), ["uplink", "socks5"]), strict, c.uplink.socks5);
  }

  /** The auth is a pointer: null makes it nil, an object fills what it points to. */
  lemma DecodeReadsAuth(was: Config, j: Json, strict: bool, c: Config)
    requires Decode(was, j, strict) == Some(c)
    ensures match At(Some(j), ["proxy", "auth"])
            case None => c.proxy.auth == was.proxy.auth
            case Some(Null) => c.proxy.auth == None
            case Some(_) =>
              var base := if was.proxy.auth.Some? then was.proxy.auth.value else ProxyAuth("", "");
              && c.proxy.auth.Some?
              && ReadsStr(At(Some(j), ["proxy", "auth", "username"]), base.username, c.proxy.auth.value.username)
              && ReadsStr(At(Some(j), ["proxy", "auth", "password"]), base.password, c.proxy.auth.value.password)
  {
    hide Decode, At, DecodeProxy, ReadsStr;
    DecodeParts(was, j, strict, c);
    ReadsProxy(was.proxy, At(Some(j), ["proxy"]), strict, c.proxy);
    AtNames(j, "proxy", "auth", "username");
    AtNames(j, "proxy", "auth", "password");
  }

  predicate OnlyKeys(v: Option<Json>, keys: set<string>) {
    v.Some? && v.value.Obj? ==> v.value.fields.Keys <= keys
  }

  /** A strict decoder accepts no member that is not a field. */
  lemma StrictKnowsItsFields(was: Config, j: Json, c: Config)
    requires Decode(was, j, true) == Some(c)
    ensures OnlyKeys(Some(j), {"expressvpn", "uplink", "proxy"})
    ensures OnlyKeys(At(Some(j), ["expressvpn"]), {"location", "protocol", "autoconnect", "protections"})
    ensures OnlyKeys(At(Some(j), ["expressvpn", "protections"]), {"ads", "trackers", "malicious", "adult"})
    ensures OnlyKeys(At(Some(j), ["uplink"]), {"mode", "socks5"})
    ensures OnlyKeys(At(Some(j), ["uplink", "socks5"]), {"host", "port", "username", "password", "udp"})
    ensures OnlyKeys(At(Some(j), ["proxy"]), {"auth"})
    ensures OnlyKeys(At(Some(j), ["proxy", "auth"]), {"username", "password"})
  {
    hide Decode, At, DecodeExpressVPN, DecodeUplink, DecodeProxy;
    DecodeParts(was, j, true, c);
    AtNames(j, "expressvpn", "protections", "");
    AtNames(j, "uplink", "socks5", "");
    AtNames(j, "proxy", "auth", "");
    StrictExpressVPN(was.expressvpn, At(Some(j), ["expressvpn"]));
    StrictUplink(was.uplink, At(Some(j), ["uplink"]));
    StrictProxy(was.proxy, At(Some(j), ["proxy"]));
  }

  lemma StrictExpressVPN(was: ExpressVPN, v: Option<Json>)
    requires DecodeExpressVPN(was, v, true).Some?
    ensures OnlyKeys(v, {"location", "protocol", "autoconnect", "protections"})
    ensures OnlyKeys(Get(FieldsOf(v), "protections"), {"ads", "trackers", "malicious", "adult"})
  {
    hide DecodeStr, DecodeBool;
  }

  lemma StrictUplink(was: Uplink, v: Option<Json>)
    requires DecodeUplink(was, v, true).Some?
    ensures OnlyKeys(v, {"mode", "socks5"}) && OnlyKeys(Get(FieldsOf(v), "socks5"), {"host", "port", "username", "password", "udp"})
  {
    hide DecodeStr, DecodeInt;
  }

  lemma StrictProxy(was: Proxy, v: Option<Json>)
    requires DecodeProxy(was, v, true).Some?
    ensures OnlyKeys(v, {"auth"}) && OnlyKeys(Get(FieldsOf(v), "auth"), {"username", "password"})
  {
    hide DecodeStr;
  }

  // ---------- sending a redacted configuration back ----------

  /** `patch` repeats `t` member by member, except that a password may be masked. */
  ghost predicate RepeatsMasked(t: Fields, patch: Json)
    decreases patch
  {
    && patch.Obj?
    && patch.fields.Keys == t.Keys
    && forall k | k in patch.fields ::
         || IsMask(k, patch.fields[k])
         || (!t[k].Obj? && !t[k].Null? && patch.fields[k] == t[k])
         || (t[k].Obj? && RepeatsMasked(t[k].fields, patch.fields[k]))
  }

  lemma {:induction false} MergeOfRepeatIsNoop(t: Fields, patch: Json)
    requires RepeatsMasked(t, patch)
    ensures MergeFields(t, patch) == t
    decreases patch
  {
    var out := MergeFields(t, patch);
    forall k ensures Get(out, k) == Get(t, k) {
      assert Get(out, k) == MergeAt(t, patch, k);
      if k in patch.fields && !IsMask(k, patch.fields[k]) && t[k].Obj? {
        MergeOfRepeatIsNoop(t[k].fields, patch.fields[k]);
      }
    }
    SameMembers(out, t);
  }

  lemma RedactedRepeatsSocks5(s: Socks5)
    ensures RepeatsMasked(EncodeSocks5(s).fields, EncodeSocks5(s.(password := Masked(s.password))))
  {
    var t, p := EncodeSocks5(s).fields, EncodeSocks5(s.(password := Masked(s.password))).fields;
    assert "host"[0] != "port"[0] && "username"[0] != "password"[0];
    assert t.Keys == p.Keys;
  }

  lemma RepeatsExpressVPN(e: ExpressVPN)
    ensures RepeatsMasked(EncodeExpressVPN(e).fields, EncodeExpressVPN(e))
  {
    assert RepeatsMasked(EncodeProtections(e.protections).fields, EncodeProtections(e.protections));
    assert "location"[0] != "protocol"[0];
  }

  lemma RedactedRepeatsAuth(a: ProxyAuth)
    ensures RepeatsMasked(EncodeAuth(Some(a)).fields, EncodeAuth(Some(a.(password := Masked(a.password)))))
  {
    assert "username"[0] != "password"[0];
  }

  ghost function SentBack(c: Config): Fields {
    MergeFields(Encode(c).fields, Encode(Redacted(c)))
  }

  /** Merging the redacted form back changes no member, except that a nil auth loses its null. */
  lemma SentBackTree(c: Config)
    ensures c.proxy.auth.Some? ==> SentBack(c) == Encode(c).fields
    ensures c.proxy.auth.None? ==> SentBack(c) == Encode(c).fields["proxy" := Obj(map[])]
  {
    var t, patch := Encode(c).fields, Encode(Redacted(c));
    var want := if c.proxy.auth.Some? then t else t["proxy" := Obj(map[])];
    RepeatsExpressVPN(c.expressvpn);
    MergeOfRepeatIsNoop(t["expressvpn"].fields, patch.fields["expressvpn"]);
    SentBackUplink(c.uplink);
    SentBackProxy(c);
    forall k ensures Get(SentBack(c), k) == Get(want, k) {
      assert Get(SentBack(c), k) == MergeAt(t, patch, k);
      if k == "expressvpn" {
        assert MergeAt(t, patch, k) == Some(Obj(MergeFields(t["expressvpn"].fields, patch.fields["expressvpn"])));
      } else if k == "uplink" {
        assert MergeAt(t, patch, k) == Some(Obj(MergeFields(t["uplink"].fields, patch.fields["uplink"])));
      } else if k == "proxy" {
        assert MergeAt(t, patch, k) == Some(Obj(MergeFields(t["proxy"].fields, patch.fields["proxy"])));
      }
    }
    SameMembers(SentBack(c), want);
  }

  lemma SentBackUplink(u: Uplink)
    ensures MergeFields(EncodeUplink(u).fields, EncodeUplink(u.(socks5 := u.socks5.(password := Masked(u.socks5.password)))))
         == EncodeUplink(u).fields
  {
    RedactedRepeatsSocks5(u.socks5);
    MergeOfRepeatIsNoop(EncodeUplink(u).fields, EncodeUplink(u.(socks5 := u.socks5.(password := Masked(u.socks5.password)))));
  }

  lemma SentBackProxy(c: Config)
    ensures MergeFields(EncodeProxy(c.proxy).fields, EncodeProxy(Redacted(c).proxy))
         == if c.proxy.auth.None? then map[] else EncodeProxy(c.proxy).fields
  {
    var t, patch := EncodeProxy(c.proxy).fields, EncodeProxy(Redacted(c).proxy);
    if c.proxy.auth.Some? {
      RedactedRepeatsAuth(c.proxy.auth.value);
      MergeOfRepeatIsNoop(t, patch);
    } else {
      forall k ensures Get(MergeFields(t, patch), k) == None { assert Get(MergeFields(t, patch), k) == MergeAt(t, patch, k); }
      SameMembers(MergeFields(t, patch), map[]);
    }
  }

  lemma DecodeMembers(was: Config, f: Fields, c: Config)
    requires f.Keys == {"expressvpn", "uplink", "proxy"}
    requires DecodeExpressVPN(was.expressvpn, Some(f["expressvpn"]), true) == Some(c.expressvpn)
    requires DecodeUplink(was.uplink, Some(f["uplink"]), true) == Some(c.uplink)
    requires DecodeProxy(was.proxy, Some(f["proxy"]), true) == Some(c.proxy)
    ensures Decode(was, Obj(f), true) == Some(c)
  {
  }

  lemma DecodeWithoutAuth(was: Config, c: Config, f: Fields)
    requires was.proxy == c.proxy && f == Encode(c).fields["proxy" := Obj(map[])]
    ensures Decode(was, Obj(f), true) == Some(c)
  {
    hide DecodeExpressVPN, DecodeUplink, EncodeExpressVPN, EncodeUplink;
    var e, u := EncodeExpressVPN(c.expressvpn), EncodeUplink(c.uplink);
    assert f.Keys == {"expressvpn", "uplink", "proxy"} && f["expressvpn"] == e && f["uplink"] == u && f["proxy"] == Obj(map[]);
    DecodeEncodeExpressVPN(was.expressvpn, c.expressvpn, true);
    DecodeEncodeUplink(was.uplink, c.uplink, true);
    DecodeMembers(was, f, c);
  }

  /** A client may send back what it was shown: the configuration that comes out is the one that went in, for every
      configuration, a nil auth and a password that is literally the mask included. */
  lemma RedactedRoundTrip(c: Config)
    ensures Decode(ZERO, Obj(SentBack(c)), true) == Some(c)
  {
    SentBackTree(c);
    if c.proxy.auth.Some? {
      DecodeEncode(ZERO, c, true);
    } else {
      DecodeWithoutAuth(ZERO, c, SentBack(c));
    }
  }

  /** ... and the store reports no changed key, exactly when the auth is not nil; otherwise it reports proxy.auth. */
  lemma SentBackDiff(c: Config)
    ensures Diff(Encode(c), Obj(SentBack(c))) == if c.proxy.auth.Some? then {} else {["proxy", "auth"]}
  {
    SentBackTree(c);
    var a, b := Encode(c), Obj(SentBack(c));
    if c.proxy.auth.Some? {
      DiffEmptyIffEqual(a, b);
    } else {
      forall p ensures p in Diff(a, b) <==> p == ["proxy", "auth"] {
        InDiff(a, b, p);
        if p != [] && p[0] in a.fields.Keys + b.fields.Keys {
          var k := p[0];
          assert p == [k] + p[1..];
          if k != "proxy" {
            DiffEmptyIffEqual(a.fields[k], b.fields[k]);
            assert DiffMember(a, b, k) == {};
          } else {
            InDiff(a.fields[k], b.fields[k], p[1..]);
            assert p in DiffMember(a, b, k) <==> p[1..] in Diff(a.fields[k], b.fields[k]) by {
              forall q | [k] + q == p ensures q == p[1..] {}
            }
            assert p[1..] in Diff(a.fields[k], b.fields[k]) <==> p[1..] == ["auth"];
          }
        }
      }
    }
  }
}
