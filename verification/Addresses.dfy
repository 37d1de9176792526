/** The SOCKS5 address form (sections 4 and 5 of RFC 1928): the encoder
    parse_addr and the two decoders parse_address and get_data_addr. */
module Addresses {
  import opened Bytes

  /** A socket address as the kernel stores it: the port is kept in its two
      network-order bytes, which the source copies without conversion. */
  datatype SockAddr = Inet(ip: seq<byte>, port: seq<byte>) | Inet6(ip: seq<byte>, port: seq<byte>) {
    predicate Valid() {
      |port| == 2 && |ip| == if Inet? then 4 else 16
    }
  }

  /** A destination as parse_address reports it. */
  datatype Host = Ip4(ip: seq<byte>) | Ip6(ip: seq<byte>) | Name(name: seq<byte>)
  datatype Dest = Dest(host: Host, port: nat)
  datatype Error = Addr4Length | Addr6Length | NameLength | Unsupported
  datatype Parsed = Ok(dest: Dest) | Err(error: Error)

  const ANY := Inet6([0, 0, 0, 0, 0, 0, 0, 0, 0, 0, 0, 0, 0, 0, 0, 0], [0, 0])

  function PortNumber(port: seq<byte>): nat
    requires |port| == 2
  {
    256 * (port[0] as int) + port[1] as int
  }

  function DestOf(a: SockAddr): Dest
    requires a.Valid()
  {
    Dest(if a.Inet? then Ip4(a.ip) else Ip6(a.ip), PortNumber(a.port))
  }

  // ---------------------------------------------------------- specification

  predicate ValidDest(d: Dest) {
    d.port < 65536 &&
    match d.host
    case Ip4(ip) => |ip| == 4
    case Ip6(ip) => |ip| == 16
    case Name(n) => |n| < 256
  }

  function PortBytes(port: nat): (b: seq<byte>)
    requires port < 65536
    ensures |b| == 2 && PortNumber(b) == port
  {
    [port / 256, port % 256]
  }

  /** Section 5 of RFC 1928: address type, address, port in network order. */
  function Rfc1928(d: Dest): seq<byte>
    requires ValidDest(d)
  {
    (match d.host
     case Ip4(ip) => [1] + ip
     case Ip6(ip) => [4] + ip
     case Name(n) => [3, |n|] + n)
    + PortBytes(d.port)
  }

  // ---------------------------------------------------------------- encoder

  function EncodeAddr(a: SockAddr): (b: seq<byte>)
    requires a.Valid()
    ensures |b| == if a.Inet? then 7 else 19
  {
    (if a.Inet? then [1] else [4]) + a.ip + a.port
  }

  /** parse_addr: writes the address in front of a buffer and returns its
      length; every byte from there on is left alone, so a UDP payload kept at
      offset 19 is never touched. */
  method ParseAddr(data: array<byte>, a: SockAddr) returns (n: nat)
    requires a.Valid() && data.Length >= 19
    modifies data
    ensures n == |EncodeAddr(a)| <= 19
    ensures data[..n] == EncodeAddr(a)
    ensures data[n..] == old(data[n..])
  {
    if a.Inet? {
      data[0] := 1;
      CopyInto(data, 1, a.ip);
      CopyInto(data, 5, a.port);
      n := 7;
    } else {
      data[0] := 4;
      CopyInto(data, 1, a.ip);
      CopyInto(data, 17, a.port);
      n := 19;
    }
  }

  /** memcpy of a whole source into an array. */
  method CopyInto(data: array<byte>, at: nat, src: seq<byte>)
    requires at + |src| <= data.Length
    modifies data
    ensures data[..] == old(data[..at]) + src + old(data[at + |src|..])
  {
    var i := 0;
    while i < |src|
      invariant 0 <= i <= |src|
      invariant data[..at] == old(data[..at])
      invariant data[at..at + i] == src[..i]
      invariant data[at + i..] == old(data[at + i..])
    {
      data[at + i] := src[i];
      i := i + 1;
    }
    assert data[..] == data[..at] + data[at..at + i] + data[at + i..];
  }

  // --------------------------------------------------------------- decoders

  /** get_data_addr: an unknown address type leaves the wildcard address. */
  function DecodeAddr(data: seq<byte>): (a: SockAddr)
    requires |data| >= 19
    ensures a.Valid()
  {
    if data[0] == 1 then Inet(data[1..5], data[5..7])
    else if data[0] == 4 then Inet6(data[1..17], data[17..19])
    else ANY
  }

  /** parse_address: `buf` is the memory behind the pointer, `len` the number
      of bytes that are meant. */
  function ParseAddress(buf: seq<byte>, len: nat): Parsed
    requires 2 <= |buf| && len <= |buf|
  {
    if buf[0] == 1 then
      if len < 7 then Err(Addr4Length)
      else Ok(Dest(Ip4(buf[1..5]), PortNumber(buf[5..7])))
    else if buf[0] == 4 then
      if len < 19 then Err(Addr6Length)
      else Ok(Dest(Ip6(buf[1..17]), PortNumber(buf[17..19])))
    else if buf[0] == 3 then
      var hostLen := buf[1] as int;
      if len < hostLen + 4 then Err(NameLength)
      else Ok(Dest(Name(buf[2..2 + hostLen]), PortNumber(buf[hostLen + 2..hostLen + 4])))
    else Err(Unsupported)
  }

  // ------------------------------------------------------------- properties

  /** Slices of a buffer that starts with a + b + c. */
  lemma Slices(buf: seq<byte>, a: seq<byte>, b: seq<byte>, c: seq<byte>)
    ensures a + b + c <= buf <==> |a| + |b| + |c| <= |buf| && buf[..|a|] == a
                                  && buf[|a|..|a| + |b|] == b && buf[|a| + |b|..|a| + |b| + |c|] == c
  {
    if |a| + |b| + |c| <= |buf| {
      assert buf[..|a|] + buf[|a|..|a| + |b|] + buf[|a| + |b|..|a| + |b| + |c|] == buf[..|a| + |b| + |c|];
      if a + b + c <= buf {
        assert buf[..|a| + |b| + |c|] == a + b + c;
        assert (a + b + c)[|a|..|a| + |b|] == b && (a + b + c)[|a| + |b|..] == c;
      }
    }
  }

  lemma PortUnique(port: seq<byte>, n: nat)
    requires |port| == 2
    ensures n == PortNumber(port) <==> n < 65536 && PortBytes(n) == port
  {
  }

  /** parse_address accepts exactly the RFC 1928 encodings, possibly followed by
      more bytes, and reports the destination that was encoded. */
  lemma ParseExact(buf: seq<byte>, len: nat, d: Dest)
    requires 2 <= |buf| && len <= |buf|
    ensures ParseAddress(buf, len) == Ok(d) <==> ValidDest(d) && Rfc1928(d) <= buf[..len]
  {
    match d.host
    case Ip4(ip) => ParseExactIp4(buf, len, d);
    case Ip6(ip) => ParseExactIp6(buf, len, d);
    case Name(n) => ParseExactName(buf, len, d);
  }

  lemma ParseExactIp4(buf: seq<byte>, len: nat, d: Dest)
    requires 2 <= |buf| && len <= |buf| && d.host.Ip4?
    ensures ParseAddress(buf, len) == Ok(d) <==> ValidDest(d) && Rfc1928(d) <= buf[..len]
  {
    if len >= 7 {
      PortUnique(buf[5..7], d.port);
      if ValidDest(d) {
        Slices(buf[..len], [1], d.host.ip, PortBytes(d.port));
      }
    }
  }

  lemma ParseExactIp6(buf: seq<byte>, len: nat, d: Dest)
    requires 2 <= |buf| && len <= |buf| && d.host.Ip6?
    ensures ParseAddress(buf, len) == Ok(d) <==> ValidDest(d) && Rfc1928(d) <= buf[..len]
  {
    if len >= 19 {
      PortUnique(buf[17..19], d.port);
      if ValidDest(d) {
        Slices(buf[..len], [4], d.host.ip, PortBytes(d.port));
      }
    }
  }

  lemma ParseExactName(buf: seq<byte>, len: nat, d: Dest)
    requires 2 <= |buf| && len <= |buf| && d.host.Name?
    ensures ParseAddress(buf, len) == Ok(d) <==> ValidDest(d) && Rfc1928(d) <= buf[..len]
  {
    var k := |d.host.name|;
    if len >= k + 4 {
      PortUnique(buf[k + 2..k + 4], d.port);
      if ValidDest(d) {
        Slices(buf[..len], [3, k], d.host.name, PortBytes(d.port));
        assert buf[..len][2..2 + k] == buf[2..2 + k];
        assert buf[..len][k + 2..k + 4] == buf[k + 2..k + 4];
      }
    }
  }

  /** What parse_address accepts, and what it reports, depends on the meant
      bytes only: whatever lies behind them in either buffer is irrelevant. */
  lemma ParseLocal(buf: seq<byte>, other: seq<byte>, len: nat)
    requires 2 <= |buf| && len <= |buf| && 2 <= |other| && len <= |other|
    requires buf[..len] == other[..len]
    ensures ParseAddress(buf, len).Ok? <==> ParseAddress(other, len).Ok?
    ensures ParseAddress(buf, len).Ok? ==> ParseAddress(buf, len) == ParseAddress(other, len)
  {
    if ParseAddress(buf, len).Ok? {
      ParseExact(buf, len, ParseAddress(buf, len).dest);
      ParseExact(other, len, ParseAddress(buf, len).dest);
    }
    if ParseAddress(other, len).Ok? {
      ParseExact(buf, len, ParseAddress(other, len).dest);
      ParseExact(other, len, ParseAddress(other, len).dest);
    }
  }

  /** get_data_addr inverts parse_addr, and parse_address agrees with both. */
  lemma AddressRoundTrip(a: SockAddr, rest: seq<byte>)
    requires a.Valid() && |EncodeAddr(a) + rest| >= 19
    ensures DecodeAddr(EncodeAddr(a) + rest) == a
    ensures ParseAddress(EncodeAddr(a) + rest, |EncodeAddr(a)|) == Ok(DestOf(a))
    ensures EncodeAddr(a) == Rfc1928(DestOf(a))
  {
    var buf := EncodeAddr(a) + rest;
    if a.Inet? {
      assert buf[1..5] == a.ip && buf[5..7] == a.port;
    } else {
      assert buf[1..17] == a.ip && buf[17..19] == a.port;
    }
    assert PortBytes(PortNumber(a.port)) == a.port;
  }

  /** The two decoders agree on every buffer, not just on encoder output:
      where parse_address accepts an IP address, get_data_addr has it too, and
      re-encoding what get_data_addr found gives the bytes back. */
  lemma DecodersAgree(buf: seq<byte>, len: nat)
    requires 19 <= |buf| && len <= |buf|
    ensures ParseAddress(buf, len).Ok? && !ParseAddress(buf, len).dest.host.Name?
            ==> ParseAddress(buf, len).dest == DestOf(DecodeAddr(buf))
    ensures buf[0] == 1 || buf[0] == 4 ==> EncodeAddr(DecodeAddr(buf)) <= buf
    ensures buf[0] != 1 && buf[0] != 4 ==> DecodeAddr(buf) == ANY
  {
    if buf[0] == 1 {
      assert EncodeAddr(DecodeAddr(buf)) == buf[..7];
    } else if buf[0] == 4 {
      assert EncodeAddr(DecodeAddr(buf)) == buf[..19];
    }
  }
}
