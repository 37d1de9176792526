/** Frames and their layout on the TLS stream: a 16-byte header (session,
    command, length, all little-endian) and a payload of at most 4096 bytes. */
module RelayData {
  import opened Bytes
  import Addresses

  const READ_BUFFER_SIZE := 4096
  const TIMEOUT := 9      // ticks until an idle relay or UDP client expires
  const HEADER_SIZE := 16
  const ADDRESS_SIZE := 19
  const WORD: nat := 4    // sizeof(uint32_t), sizeof(command)
  const LONG: nat := 8    // sizeof(size_t)

  datatype Command = StopTcp | StartTcp | DataUdp | DataTcp | StopUdp | Unknown(code: nat)
  datatype Frame = Frame(session: nat, cmd: Command, data: seq<byte>)
  datatype Header = Header(session: nat, cmd: Command, len: nat)

  function CodeOf(c: Command): nat {
    match c
    case StopTcp => 0
    case StartTcp => 1
    case DataUdp => 2
    case DataTcp => 3
    case StopUdp => 4
    case Unknown(code) => code
  }

  function CommandOf(code: nat): Command {
    if code == 0 then StopTcp else if code == 1 then StartTcp else if code == 2 then DataUdp
    else if code == 3 then DataTcp else if code == 4 then StopUdp else Unknown(code)
  }

  function EncodeHeader(f: Frame): (b: seq<byte>)
    ensures |b| == HEADER_SIZE
  {
    Little(f.session, WORD) + Little(CodeOf(f.cmd), WORD) + Little(|f.data|, LONG)
  }

  function DecodeHeader(b: seq<byte>): Header
    requires |b| == HEADER_SIZE
  {
    Header(FromLittle(b[..4]), CommandOf(FromLittle(b[4..8])), FromLittle(b[8..]))
  }

  /** header_buffer followed by data_buffer: what ssl_relay writes. */
  function Encode(f: Frame): (b: seq<byte>)
    ensures |b| == HEADER_SIZE + |f.data|
  {
    EncodeHeader(f) + f.data
  }

  /** The payload behind the fixed 19-byte address field of a UDP frame. */
  function UdpPayload(f: Frame): seq<byte> {
    if |f.data| < ADDRESS_SIZE then [] else f.data[ADDRESS_SIZE..]
  }

  /** The memory behind data_buffer: the payload in a zeroed 4096-byte array. */
  function Padded(data: seq<byte>): (b: seq<byte>)
    requires |data| <= READ_BUFFER_SIZE
    ensures |b| == READ_BUFFER_SIZE && b[..|data|] == data
  {
    data + seq(READ_BUFFER_SIZE - |data|, (_: nat) => 0 as byte)
  }

  /** What remote_server_start_tcp reads from a START_TCP frame. */
  function DestOf(data: seq<byte>): Addresses.Parsed
    requires |data| <= READ_BUFFER_SIZE
  {
    Addresses.ParseAddress(Padded(data), |data|)
  }

  /** What every component promises about the frames it queues. */
  predicate WellFormed(f: Frame) {
    && f.session < Pow256(WORD)
    && |f.data| <= READ_BUFFER_SIZE
    && !f.cmd.Unknown?
    && (f.cmd == DataUdp ==> |f.data| >= ADDRESS_SIZE)
    && (f.cmd == StartTcp ==> DestOf(f.data).Ok?)
  }

  lemma Powers()
    ensures Pow256(WORD) == 0x1_0000_0000 && Pow256(LONG) == 0x1_0000_0000_0000_0000
  {
    assert Pow256(1) == 256;
    assert Pow256(2) == 256 * 256;
    assert Pow256(3) == 256 * Pow256(2);
    assert Pow256(4) == 256 * Pow256(3);
    assert Pow256(5) == 256 * Pow256(4);
    assert Pow256(6) == 256 * Pow256(5);
    assert Pow256(7) == 256 * Pow256(6);
  }

  /** The receiver reads back the header the sender wrote. */
  lemma HeaderRoundTrip(f: Frame)
    requires WellFormed(f)
    ensures DecodeHeader(EncodeHeader(f)) == Header(f.session, f.cmd, |f.data|)
  {
    Powers();
    var b := EncodeHeader(f);
    assert b[..4] == Little(f.session, WORD);
    assert b[4..8] == Little(CodeOf(f.cmd), WORD);
    assert b[8..] == Little(|f.data|, LONG);
    LittleRoundTrip(f.session, WORD);
    LittleRoundTrip(CodeOf(f.cmd), WORD);
    LittleRoundTrip(|f.data|, LONG);
  }

  // ------------------------------------------------- START_TCP destinations

  /** SOCKS mode: the CONNECT request's address bytes, accepted locally by
      parse_address, are copied into the START_TCP frame. The remote end
      accepts the frame exactly then and finds the same destination. */
  lemma SocksDestination(request: seq<byte>, len: nat)
    requires 2 <= |request| && len <= |request| && len <= READ_BUFFER_SIZE
    ensures DestOf(request[..len]).Ok? <==> Addresses.ParseAddress(request, len).Ok?
    ensures DestOf(request[..len]).Ok? ==> DestOf(request[..len]) == Addresses.ParseAddress(request, len)
  {
    Addresses.ParseLocal(request, Padded(request[..len]), len);
  }

  /** Transparent mode: the socket's original destination, encoded by
      parse_addr, is accepted and names that destination. */
  lemma TransparentDestination(a: Addresses.SockAddr)
    requires a.Valid()
    ensures DestOf(Addresses.EncodeAddr(a)) == Addresses.Ok(Addresses.DestOf(a))
  {
    var e := Addresses.EncodeAddr(a);
    var zeros := seq(READ_BUFFER_SIZE - |e|, (_: nat) => 0 as byte);
    Addresses.AddressRoundTrip(a, zeros);
  }

  // ------------------------------------------------------------ the buffer

  const SIZE_T := 0x1_0000_0000_0000_0000

  /** class relay_data: a header and a 4096-byte array. */
  class Buffer {
    var session: nat
    var cmd: Command
    var len: nat
    const bytes: array<byte>

    ghost predicate Valid()
      reads this
    {
      bytes.Length == READ_BUFFER_SIZE && len < SIZE_T
    }

    /** The frame this buffer stands for, when its length is in range. */
    ghost function View(): Frame
      requires Valid() && len <= READ_BUFFER_SIZE
      reads this, bytes
    {
      Frame(session, cmd, bytes[..len])
    }

    /** relay_data(): a UDP receive buffer. */
    constructor ()
      ensures Valid() && fresh(bytes) && session == 0 && cmd == DataUdp && len == READ_BUFFER_SIZE
      ensures bytes[..] == seq(READ_BUFFER_SIZE, (_: nat) => 0 as byte)
    {
      session, cmd, len := 0, DataUdp, READ_BUFFER_SIZE;
      bytes := new byte[READ_BUFFER_SIZE]((_: nat) => 0 as byte);
    }

    /** relay_data(session): a TCP read buffer. */
    constructor ForRead(s: nat)
      ensures Valid() && fresh(bytes) && session == s && cmd == DataTcp && len == READ_BUFFER_SIZE
      ensures bytes[..] == seq(READ_BUFFER_SIZE, (_: nat) => 0 as byte)
    {
      session, cmd, len := s, DataTcp, READ_BUFFER_SIZE;
      bytes := new byte[READ_BUFFER_SIZE]((_: nat) => 0 as byte);
    }

    /** resize: the number of bytes a read returned. */
    method Resize(n: nat)
      requires Valid() && n < SIZE_T
      modifies `len
      ensures Valid() && len == n
    {
      len := n;
    }

    /** resize_udp: size_t arithmetic, so a failed receive (size_t of -1) wraps. */
    method ResizeUdp(n: nat)
      requires Valid() && n < SIZE_T
      modifies `len
      ensures Valid() && len == (n + ADDRESS_SIZE) % SIZE_T
    {
      len := (n + ADDRESS_SIZE) % SIZE_T;
    }

    /** udp_data_size, again in size_t arithmetic. */
    function UdpDataSize(): (n: nat)
      reads this
      ensures ADDRESS_SIZE <= len < SIZE_T ==> n == len - ADDRESS_SIZE
    {
      if len >= ADDRESS_SIZE then len - ADDRESS_SIZE else len + SIZE_T - ADDRESS_SIZE
    }
  }

  /** The frame raw_udp builds from a datagram: the peer's address in front,
      the payload at offset 19. `stale` is what the buffer held before. */
  function DatagramFrame(session: nat, peer: Addresses.SockAddr, payload: seq<byte>, stale: seq<byte>): Frame
    requires peer.Valid() && |stale| == ADDRESS_SIZE
  {
    var a := Addresses.EncodeAddr(peer);
    Frame(session, DataUdp, a + stale[|a|..] + payload)
  }

  /** One turn of the receive loop: the datagram lands at offset 19, then the
      peer's address is written in front of it. */
  method FrameDatagram(session: nat, peer: Addresses.SockAddr, payload: seq<byte>) returns (buf: Buffer)
    requires peer.Valid() && |payload| <= READ_BUFFER_SIZE - ADDRESS_SIZE
    ensures fresh(buf) && buf.Valid() && buf.len <= READ_BUFFER_SIZE
    ensures buf.View() == DatagramFrame(session, peer, payload, seq(ADDRESS_SIZE, (_: nat) => 0 as byte))
    ensures buf.UdpDataSize() == |payload|
  {
    buf := new Buffer();
    ghost var zeros := buf.bytes[..];
    Addresses.CopyInto(buf.bytes, ADDRESS_SIZE, payload);
    assert buf.bytes[..ADDRESS_SIZE] == zeros[..ADDRESS_SIZE];
    assert buf.bytes[ADDRESS_SIZE..ADDRESS_SIZE + |payload|] == payload;
    ghost var before := buf.bytes[..];
    var n := Addresses.ParseAddr(buf.bytes, peer);
    assert before[n..] == buf.bytes[n..];
    buf.session := session;
    buf.ResizeUdp(|payload|);
    hide Addresses.EncodeAddr;
    SliceKept(before, buf.bytes[..], n, ADDRESS_SIZE, buf.len);
    SliceKept(before, buf.bytes[..], n, n, ADDRESS_SIZE);
    assert before[n..ADDRESS_SIZE] == seq(ADDRESS_SIZE, (_: nat) => 0 as byte)[n..] by {
      assert before[..ADDRESS_SIZE] == zeros[..ADDRESS_SIZE];
    }
    Joined(buf.bytes[..], n, ADDRESS_SIZE, buf.len);
  }

  lemma SliceKept(a: seq<byte>, b: seq<byte>, n: nat, i: nat, j: nat)
    requires n <= i <= j <= |a| == |b| && a[n..] == b[n..]
    ensures b[i..j] == a[i..j]
  {
    forall x | i <= x < j
      ensures b[x] == a[x]
    {
      assert b[n..][x - n] == a[n..][x - n];
    }
  }

  lemma Joined(b: seq<byte>, i: nat, j: nat, k: nat)
    requires i <= j <= k <= |b|
    ensures b[..k] == b[..i] + b[i..j] + b[j..k]
  {
  }

  /** A datagram frame is well formed, and the far side recovers both the
      address and the payload from it. */
  lemma DatagramRoundTrip(session: nat, peer: Addresses.SockAddr, payload: seq<byte>, stale: seq<byte>)
    requires peer.Valid() && |stale| == ADDRESS_SIZE
    requires session < Pow256(WORD) && |payload| <= READ_BUFFER_SIZE - ADDRESS_SIZE
    ensures WellFormed(DatagramFrame(session, peer, payload, stale))
    ensures UdpPayload(DatagramFrame(session, peer, payload, stale)) == payload
    ensures Addresses.DecodeAddr(DatagramFrame(session, peer, payload, stale).data) == peer
  {
    var a := Addresses.EncodeAddr(peer);
    var rest := stale[|a|..] + payload;
    assert a + stale[|a|..] + payload == a + rest;
    Addresses.AddressRoundTrip(peer, rest);
  }

  /** resize_udp yields a length from which udp_data_size recovers what was
      received exactly when the receive did not fail; recvmsg's -1, taken as a
      size_t, gives length 18 and a payload size that has wrapped. */
  lemma ResizeUdpExact(n: nat)
    requires n <= READ_BUFFER_SIZE - ADDRESS_SIZE || n == SIZE_T - 1
    ensures ADDRESS_SIZE <= (n + ADDRESS_SIZE) % SIZE_T <= READ_BUFFER_SIZE <==> n != SIZE_T - 1
    ensures n == SIZE_T - 1 ==> (n + ADDRESS_SIZE) % SIZE_T == 18
  {
  }
}
