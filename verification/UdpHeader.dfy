/** The datagram header of section 7 of RFC 1928, and the decimal printing of ports. */
module UdpHeader {
  import opened Wrappers
  import opened Socks

  function PackUDPHeader(from: Addr): bytes {
    match To4(from.ip)
    case Some(ip4) => [0, 0, 0, IPV4] + ip4 + U16(from.port)
    case None => [0, 0, 0, IPV6] + To16(from.ip) + U16(from.port)
  }

  datatype Parsed = Parsed(hdrLen: nat, target: Addr)

  /** `resolve` is the tunnel's resolver; an empty domain is left without an address. Fragments are refused. */
  function ParseUDPHeader(pkt: bytes, resolve: bytes -> Option<bytes>): (r: Option<Parsed>)
    ensures r.Some? ==> 7 <= r.value.hdrLen <= |pkt|
  {
    if |pkt| < 4 || pkt[2] != 0 then None
    else if pkt[3] == IPV4 then
      if |pkt| < 10 then None else Some(Parsed(10, Addr(pkt[4..8], FromU16(pkt[8], pkt[9]))))
    else if pkt[3] == IPV6 then
      if |pkt| < 22 then None else Some(Parsed(22, Addr(pkt[4..20], FromU16(pkt[20], pkt[21]))))
    else if pkt[3] == DOMAIN then
      if |pkt| < 5 || |pkt| - 7 < pkt[4] then None
      else
        var l: nat := pkt[4];
        var port := FromU16(pkt[5 + l], pkt[6 + l]);
        if l == 0 then Some(Parsed(7, Addr([], port)))
        else match resolve(pkt[5..5 + l])
          case Some(ip) => Some(Parsed(7 + l, Addr(ip, port)))
          case None => None
    else None
  }

  /** The header put before a reply decodes to the address the reply came from, and ends where its payload starts. */
  lemma ParseOfPack(from: Addr, payload: bytes, resolve: bytes -> Option<bytes>)
    requires |from.ip| == 4 || |from.ip| == 16
    ensures var pkt := PackUDPHeader(from) + payload;
            var r := ParseUDPHeader(pkt, resolve);
            r == Some(Parsed(|PackUDPHeader(from)|, Canon(from))) && pkt[r.value.hdrLen..] == payload
  {
    var hdr := PackUDPHeader(from);
    var pkt := hdr + payload;
    U16RoundTrip(from.port);
    if To4(from.ip).Some? {
      var ip4 := To4(from.ip).value;
      assert |hdr| == 10 && pkt[4..8] == ip4 && pkt[8] == U16(from.port)[0] && pkt[9] == U16(from.port)[1];
    } else {
      assert |hdr| == 22 && pkt[4..20] == from.ip && pkt[20] == U16(from.port)[0] && pkt[21] == U16(from.port)[1];
    }
  }

  /** Section 7 of RFC 1928 for names: a whole header with a name of 1 to 255 bytes ends where the payload starts and stands
      for the resolved address and its port; it is refused exactly when the name does not resolve. */
  lemma ParseOfName(host: bytes, port: Port, payload: bytes, resolve: bytes -> Option<bytes>)
    requires 1 <= |host| <= 255
    ensures var pkt := NameHeader(host, port) + payload;
            var r := ParseUDPHeader(pkt, resolve);
            && (r.None? <==> resolve(host).None?)
            && (r.Some? ==> r.value == Parsed(7 + |host|, Addr(resolve(host).value, port)) && pkt[r.value.hdrLen..] == payload)
  {
    U16RoundTrip(port);
    var pkt := NameHeader(host, port) + payload;
    assert pkt[5..5 + |host|] == host;
    assert pkt[5 + |host|] == U16(port)[0] && pkt[6 + |host|] == U16(port)[1];
  }

  function NameHeader(host: bytes, port: Port): bytes
    requires |host| <= 255
  {
    [0, 0, 0, DOMAIN, |host|] + host + U16(port)
  }

  /** For addresses, whatever the reserved bytes are. */
  lemma ParseOfAddress(rsv: bytes, ip: bytes, port: Port, payload: bytes, resolve: bytes -> Option<bytes>)
    requires |rsv| == 2 && (|ip| == 4 || |ip| == 16)
    ensures var pkt := rsv + [0, if |ip| == 4 then 1 else 4] + ip + U16(port) + payload;
            ParseUDPHeader(pkt, resolve) == Some(Parsed(6 + |ip|, Addr(ip, port))) && pkt[6 + |ip|..] == payload
  {
    U16RoundTrip(port);
    var pkt := rsv + [0, if |ip| == 4 then 1 else 4] + ip + U16(port) + payload;
    assert pkt[4..4 + |ip|] == ip && pkt[4 + |ip|] == U16(port)[0] && pkt[5 + |ip|] == U16(port)[1];
  }

  /** What is accepted: an unfragmented datagram with a whole header, and a name that resolves unless it is empty. */
  lemma AcceptedIff(pkt: bytes, resolve: bytes -> Option<bytes>)
    ensures ParseUDPHeader(pkt, resolve).Some? <==>
            && |pkt| >= 7 && pkt[2] == 0
            && (|| (pkt[3] == 1 && |pkt| >= 10)
                || (pkt[3] == 4 && |pkt| >= 22)
                || (pkt[3] == 3 && |pkt| >= 7 + pkt[4] as int && (pkt[4] == 0 || resolve(pkt[5..5 + pkt[4]]).Some?)))
  {
  }

  /** Conversely, packing the target of an accepted address header gives the header back exactly when its reserved bytes are
      zero and it does not spell an IPv4 address as a mapped sixteen-byte one. */
  lemma PackOfParseIff(pkt: bytes, resolve: bytes -> Option<bytes>)
    requires var r := ParseUDPHeader(pkt, resolve); r.Some? && pkt[3] != DOMAIN
    ensures var r := ParseUDPHeader(pkt, resolve).value;
            PackUDPHeader(r.target) == pkt[..r.hdrLen]
            <==> pkt[0] == 0 && pkt[1] == 0 && (pkt[3] == IPV6 ==> To4(r.target.ip).None?)
  {
    var r := ParseUDPHeader(pkt, resolve).value;
    var hdr, packed := pkt[..r.hdrLen], PackUDPHeader(r.target);
    var hi, lo := pkt[r.hdrLen - 2], pkt[r.hdrLen - 1];
    assert U16(FromU16(hi, lo)) == [hi, lo];
    assert hdr == [pkt[0], pkt[1], 0, pkt[3]] + r.target.ip + [hi, lo];
    assert packed[0] == 0 && packed[1] == 0 && (packed[3] == IPV4 <==> To4(r.target.ip).Some?);
    assert hdr[0] == pkt[0] && hdr[1] == pkt[1] && hdr[3] == pkt[3];
  }

  lemma PackOfCanon(a: Addr)
    ensures PackUDPHeader(Canon(a)) == PackUDPHeader(a)
  {
  }

  /** The decimal digits of a port, written from the end of a fixed buffer. */
  method Itoa(n: nat) returns (s: string)
    requires n < 100_000_000
    ensures Decimal(s) == n && s != "" && (forall i | 0 <= i < |s| :: '0' <= s[i] <= '9') && (s[0] == '0' ==> s == "0")
  {
    hide Pow10, Decimal;
    NoDigits(n);
    if n == 0 {
      s := "0";
      DecimalCons('0', "");
      assert s == ['0'] + "";
      assert Decimal(s) == 0 * Pow10(|""|) + 0;
      assert Decimal(s) == n;
      return;
    }
    var b := new char[8](_ => '0');
    var i, rest := b.Length, n;
    assert b[i..] == "";
    while rest > 0
      invariant 0 <= i <= b.Length == 8
      invariant 0 <= rest < Pow10(i) && n == rest * Pow10(|b[i..]|) + Decimal(b[i..])
      invariant forall k | i <= k < 8 :: '0' <= b[k] <= '9'
      invariant rest == 0 ==> i < 8 && b[i] != '0'
      decreases rest
    {
      ghost var tail := b[i..];
      NoDigits(rest);
      i := i - 1;
      b[i] := ('0' as int + rest % 10) as char;
      assert b[i..] == [b[i]] + tail;
      DigitMoves(n, rest, tail, i);
      rest := rest / 10;
    }
    s := b[i..];
    NoDigits(|s|);
    assert s[0] == b[i] != '0';
    assert Decimal(s) == n;
  }

  lemma NoDigits(n: nat)
    ensures Decimal("") == 0 && Pow10(0) == 1 && Pow10(8) == 100_000_000
    ensures n * Pow10(0) == n && 0 * Pow10(n) == 0
  {
    assert Pow10(8) == 100 * Pow10(6) == 10_000 * Pow10(4) == 1_000_000 * Pow10(2);
  }

  function Pow10(n: nat): nat {
    if n == 0 then 1 else 10 * Pow10(n - 1)
  }

  function Decimal(s: string): int {
    if s == "" then 0 else 10 * Decimal(s[..|s| - 1]) + (s[|s| - 1] as int - '0' as int)
  }

  lemma {:induction false} DecimalCons(c: char, s: string)
    ensures Decimal([c] + s) == (c as int - '0' as int) * Pow10(|s|) + Decimal(s)
    decreases |s|
  {
    if s == "" {
      assert [c] + s == [c] && [c][..0] == "";
    } else {
      assert ([c] + s)[..|s|] == [c] + s[..|s| - 1];
      DecimalCons(c, s[..|s| - 1]);
      var d := c as int - '0' as int;
      assert 10 * (d * Pow10(|s| - 1)) == d * (10 * Pow10(|s| - 1));
    }
  }

  /** Moving the last digit of `rest` to the front of the written tail keeps the number they stand for. */
  lemma DigitMoves(n: nat, rest: nat, tail: string, i: nat)
    requires n == rest * Pow10(|tail|) + Decimal(tail) && rest < Pow10(i + 1)
    ensures var digits := [('0' as int + rest % 10) as char] + tail;
            n == (rest / 10) * Pow10(|digits|) + Decimal(digits)
    ensures rest / 10 < Pow10(i)
  {
    var q, r, p := rest / 10, rest % 10, Pow10(|tail|);
    DecimalCons(('0' as int + r) as char, tail);
    assert rest == 10 * q + r;
    assert (10 * q + r) * p == q * (10 * p) + r * p;
  }
}
