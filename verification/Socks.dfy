/** Bytes, addresses and the SOCKS5 constants shared by the TCP dialog and the UDP relay. */
module Socks {
  import opened Wrappers

  type byte = b: int | 0 <= b < 256

  type bytes = seq<byte>

  const IPV4: byte := 1
  const DOMAIN: byte := 3
  const IPV6: byte := 4

  type Port = p: int | 0 <= p < 0x1_0000

  function U16(p: Port): bytes {
    [p / 256, p % 256]
  }

  function FromU16(hi: byte, lo: byte): Port {
    hi * 256 + lo
  }

  /** Network order: the high byte goes first. */
  lemma U16RoundTrip(p: Port)
    ensures |U16(p)| == 2 && U16(p)[0] as int * 256 + U16(p)[1] as int == p
    ensures FromU16(U16(p)[0], U16(p)[1]) == p
  {
  }

  const V4_IN_V6: bytes := [0, 0, 0, 0, 0, 0, 0, 0, 0, 0, 255, 255]

  /** net.IP.To4: four bytes, from four or from an IPv4-mapped sixteen. */
  function To4(ip: bytes): Option<bytes> {
    if |ip| == 4 then Some(ip)
    else if |ip| == 16 && ip[..12] == V4_IN_V6 then Some(ip[12..])
    else None
  }

  /** net.IP.To16 where To4 fails: an address that is not IPv6 either has no bytes. */
  function To16(ip: bytes): bytes {
    if |ip| == 16 then ip else []
  }

  datatype Addr = Addr(ip: bytes, port: Port)

  /** The form in which an address prints: an IPv4-mapped one prints as IPv4. Equal prints are equal forms. */
  function Canon(a: Addr): Addr {
    match To4(a.ip)
    case Some(ip4) => a.(ip := ip4)
    case None => a.(ip := To16(a.ip))
  }

  /** An address prints as IPv4 exactly when it has four bytes, or sixteen of which the first twelve are ten zeros and two
      255s; then it is the last four. */
  lemma CanonMeans(a: Addr)
    ensures |a.ip| == 4 ==> Canon(a) == a
    ensures |a.ip| == 16 && a.ip[..12] == [0, 0, 0, 0, 0, 0, 0, 0, 0, 0, 255, 255] ==> Canon(a) == Addr(a.ip[12..], a.port)
    ensures |a.ip| == 16 && a.ip[..12] != [0, 0, 0, 0, 0, 0, 0, 0, 0, 0, 255, 255] ==> Canon(a) == a
  {
  }
}
