/** The receiving half of a TLS connection: ssl_relay's read loop, which cuts
    the byte stream back into frames. The transport hands over a prefix of what
    was written, in chunks of any size. */
module SslReader {
  import opened Bytes
  import opened RelayData
  import opened RelayQueue

  datatype Phase = InHeader | InBody(head: Header, got: seq<byte>) | Ended
  datatype Reader = Reader(pos: nat, phase: Phase, delivered: seq<Frame>)

  const NEW_READER := Reader(0, InHeader, [])

  /** A chunk of k bytes arrives for the read in progress, or it fails. */
  datatype ReadStep = Chunk(k: nat) | Failed

  predicate CanRead(rd: Reader, wire: seq<byte>, st: ReadStep) {
    match st
    case Failed => !rd.phase.Ended?
    case Chunk(k) =>
      0 < k && rd.pos + k <= |wire| &&
      match rd.phase
      case InHeader => k <= HEADER_SIZE
      case InBody(h, got) => |got| + k <= h.len
      case Ended => false
  }

  function Deliver(rd: Reader, h: Header, body: seq<byte>): Reader {
    rd.(phase := InHeader, delivered := rd.delivered + [Frame(h.session, h.cmd, body)])
  }

  /** A header came in one piece: the length guard, then the body. */
  function TakeHeader(rd: Reader, h: Header): Reader {
    if h.len > READ_BUFFER_SIZE then rd.(phase := Ended)
    else if h.len == 0 then Deliver(rd, h, [])
    else rd.(phase := InBody(h, []))
  }

  /** One completed read. A header that arrives in two pieces ends the loop:
      it is read with async_read_some and must be complete. */
  function Read(rd: Reader, wire: seq<byte>, st: ReadStep): Reader
    requires CanRead(rd, wire, st)
  {
    match st
    case Failed => rd.(phase := Ended)
    case Chunk(k) =>
      var next := rd.(pos := rd.pos + k);
      var bytes := wire[rd.pos..rd.pos + k];
      match rd.phase
      case InHeader =>
        if k != HEADER_SIZE then next.(phase := Ended) else TakeHeader(next, DecodeHeader(bytes))
      case InBody(h, got) =>
        if |got| + k == h.len then Deliver(next, h, got + bytes) else next.(phase := InBody(h, got + bytes))
      case Ended => next
  }

  // ------------------------------------------------------------- invariant

  function Frames(bs: seq<Buf>): (fs: seq<Frame>)
    ensures |fs| == |bs| && forall i :: 0 <= i < |bs| ==> fs[i] == bs[i].frame
  {
    seq(|bs|, i requires 0 <= i < |bs| => bs[i].frame)
  }

  /** What ssl_relay is given to send: well-formed frames, header and data. */
  predicate Sendable(bs: seq<Buf>) {
    forall i :: 0 <= i < |bs| ==> WellFormed(bs[i].frame) && bs[i].bytes == Encode(bs[i].frame)
  }

  /** How far into the frame after the delivered ones the reader is. */
  function Partial(rd: Reader): nat {
    if rd.phase.InBody? then HEADER_SIZE + |rd.phase.got| else 0
  }

  ghost predicate ReaderInv(rd: Reader, wire: seq<byte>, offered: seq<Buf>) {
    var n := |rd.delivered|;
    && Sendable(offered) && wire <= Flatten(offered) && rd.pos <= |wire|
    && n <= |offered| && rd.delivered == Frames(offered[..n])
    && (!rd.phase.Ended? ==> rd.pos == |Flatten(offered[..n])| + Partial(rd))
    && (rd.phase.InBody? ==>
          && n < |offered|
          && rd.phase.head == Header(offered[n].frame.session, offered[n].frame.cmd, |offered[n].frame.data|)
          && rd.phase.got <= offered[n].frame.data && |rd.phase.got| < |offered[n].frame.data|)
  }

  /** The n-th frame's bytes in the stream. */
  lemma FrameAt(offered: seq<Buf>, n: nat)
    requires n < |offered|
    ensures |Flatten(offered[..n])| + |offered[n].bytes| == |Flatten(offered[..n + 1])| <= |Flatten(offered)|
    ensures Flatten(offered)[|Flatten(offered[..n])|..|Flatten(offered[..n + 1])|] == offered[n].bytes
  {
    assert offered[..n + 1] == offered[..n] + [offered[n]];
    FlattenSplit(offered[..n], [offered[n]]);
    FlattenOne(offered[n]);
    assert offered == offered[..n + 1] + offered[n + 1..];
    FlattenSplit(offered[..n + 1], offered[n + 1..]);
    Middle(Flatten(offered[..n]), offered[n].bytes, Flatten(offered[n + 1..]));
  }

  lemma Middle(a: seq<byte>, b: seq<byte>, c: seq<byte>)
    ensures (a + b + c)[|a|..|a| + |b|] == b
  {
  }

  /** If a byte beyond the delivered frames exists, so does the next frame. */
  lemma MoreFrames(offered: seq<Buf>, n: nat, pos: nat)
    requires n <= |offered| && |Flatten(offered[..n])| <= pos < |Flatten(offered)|
    ensures n < |offered|
  {
    assert offered[..|offered|] == offered;
  }

  /** A slice of the wire is a slice of the next frame's bytes. */
  lemma WireSlice(wire: seq<byte>, offered: seq<Buf>, n: nat, from: nat, to: nat)
    requires wire <= Flatten(offered) && n < |offered|
    requires from <= to <= |offered[n].bytes| && |Flatten(offered[..n])| + to <= |wire|
    ensures wire[|Flatten(offered[..n])| + from..|Flatten(offered[..n])| + to] == offered[n].bytes[from..to]
  {
    FrameAt(offered, n);
    var a := |Flatten(offered[..n])|;
    var whole := Flatten(offered);
    assert wire == whole[..|wire|];
    assert whole[a..|Flatten(offered[..n + 1])|][from..to] == whole[a + from..a + to];
    assert wire[a + from..a + to] == whole[a + from..a + to];
  }

  lemma HeaderSlice(f: Frame)
    requires WellFormed(f)
    ensures DecodeHeader(Encode(f)[0..HEADER_SIZE]) == Header(f.session, f.cmd, |f.data|)
  {
    HeaderRoundTrip(f);
    assert Encode(f)[0..HEADER_SIZE] == EncodeHeader(f);
  }

  lemma BodySlice(f: Frame, i: nat, j: nat)
    requires i <= j <= |f.data|
    ensures Encode(f)[HEADER_SIZE + i..HEADER_SIZE + j] == f.data[i..j]
  {
  }

  lemma DeliverNext(rd: Reader, wire: seq<byte>, offered: seq<Buf>)
    requires var n := |rd.delivered|;
             && Sendable(offered) && wire <= Flatten(offered) && rd.pos <= |wire|
             && n < |offered| && rd.delivered == Frames(offered[..n])
             && rd.pos == |Flatten(offered[..n])| + HEADER_SIZE + |offered[n].frame.data|
    ensures var f := offered[|rd.delivered|].frame;
            ReaderInv(Deliver(rd, Header(f.session, f.cmd, |f.data|), f.data), wire, offered)
  {
    var n := |rd.delivered|;
    FrameAt(offered, n);
    assert Frames(offered[..n + 1]) == Frames(offered[..n]) + [offered[n].frame];
  }

  lemma HeaderKeepsInv(rd: Reader, wire: seq<byte>, offered: seq<Buf>)
    requires ReaderInv(rd, wire, offered) && rd.phase.InHeader? && CanRead(rd, wire, Chunk(HEADER_SIZE))
    ensures ReaderInv(Read(rd, wire, Chunk(HEADER_SIZE)), wire, offered)
    ensures !Read(rd, wire, Chunk(HEADER_SIZE)).phase.Ended?
  {
    hide Encode;
    var n := |rd.delivered|;
    MoreFrames(offered, n, rd.pos);
    var f := offered[n].frame;
    WireSlice(wire, offered, n, 0, HEADER_SIZE);
    HeaderSlice(f);
    var next := rd.(pos := rd.pos + HEADER_SIZE);
    assert Read(rd, wire, Chunk(HEADER_SIZE)) == TakeHeader(next, Header(f.session, f.cmd, |f.data|));
    if |f.data| == 0 {
      assert f.data == [];
      DeliverNext(next, wire, offered);
    } else {
      assert next.(phase := InBody(Header(f.session, f.cmd, |f.data|), [])).phase.got == [];
    }
  }

  /** The body read so far is the start of the next frame's data. */
  lemma BodyBytes(rd: Reader, wire: seq<byte>, offered: seq<Buf>, k: nat)
    requires ReaderInv(rd, wire, offered) && rd.phase.InBody? && CanRead(rd, wire, Chunk(k))
    ensures var f := offered[|rd.delivered|].frame;
            rd.phase.got + wire[rd.pos..rd.pos + k] == f.data[..|rd.phase.got| + k]
  {
    var n := |rd.delivered|;
    var f := offered[n].frame;
    var g := |rd.phase.got|;
    WireSlice(wire, offered, n, HEADER_SIZE + g, HEADER_SIZE + g + k);
    BodySlice(f, g, g + k);
    TakeMore(f.data, g, k);
    assert rd.phase.got == f.data[..g];
  }

  lemma BodyKeepsInv(rd: Reader, wire: seq<byte>, offered: seq<Buf>, k: nat)
    requires ReaderInv(rd, wire, offered) && rd.phase.InBody? && CanRead(rd, wire, Chunk(k))
    ensures ReaderInv(Read(rd, wire, Chunk(k)), wire, offered)
    ensures !Read(rd, wire, Chunk(k)).phase.Ended?
  {
    hide Encode;
    var f := offered[|rd.delivered|].frame;
    var g := |rd.phase.got|;
    var got := rd.phase.got + wire[rd.pos..rd.pos + k];
    BodyBytes(rd, wire, offered, k);
    if g + k == |f.data| {
      assert f.data[..g + k] == f.data;
      DeliverNext(rd.(pos := rd.pos + k), wire, offered);
    } else {
      assert Read(rd, wire, Chunk(k)) == rd.(pos := rd.pos + k, phase := InBody(rd.phase.head, got));
    }
  }

  /** Every read keeps the invariant; of the ways a read loop ends, only a
      header in two pieces and a failed read can occur with this peer. The
      length guard never fires. */
  lemma ReadKeepsInv(rd: Reader, wire: seq<byte>, offered: seq<Buf>, st: ReadStep)
    requires ReaderInv(rd, wire, offered) && CanRead(rd, wire, st)
    ensures ReaderInv(Read(rd, wire, st), wire, offered)
    ensures Read(rd, wire, st).phase.Ended? <==> st.Failed? || (rd.phase.InHeader? && st.k != HEADER_SIZE)
  {
    match st
    case Failed =>
    case Chunk(k) =>
      if rd.phase.InBody? {
        BodyKeepsInv(rd, wire, offered, k);
      } else if k == HEADER_SIZE {
        HeaderKeepsInv(rd, wire, offered);
      } else {
      }
  }

  /** The sender may go on meanwhile. */
  lemma ReaderInvGrows(rd: Reader, wire: seq<byte>, offered: seq<Buf>, wire': seq<byte>, offered': seq<Buf>)
    requires ReaderInv(rd, wire, offered)
    requires wire <= wire' <= Flatten(offered') && offered <= offered' && Sendable(offered')
    ensures ReaderInv(rd, wire', offered')
  {
    var n := |rd.delivered|;
    assert offered'[..n] == offered[..n];
  }

  /** Frames once handed on stay handed on. */
  lemma ReadDelivers(rd: Reader, wire: seq<byte>, st: ReadStep)
    requires CanRead(rd, wire, st)
    ensures rd.delivered <= Read(rd, wire, st).delivered
  {
    if st.Chunk? && rd.phase.InHeader? && st.k == HEADER_SIZE {
      var h := DecodeHeader(wire[rd.pos..rd.pos + st.k]);
      if h.len > READ_BUFFER_SIZE {} else if h.len == 0 {} else {}
    } else {
    }
  }

  // ------------------------------------------------------ the read loop itself

  /** The reads of a loop that meets chunks of the given sizes. */
  predicate CanReadAll(rd: Reader, wire: seq<byte>, sizes: seq<nat>)
    decreases |sizes|
  {
    sizes != [] ==> CanRead(rd, wire, Chunk(sizes[0])) && CanReadAll(Read(rd, wire, Chunk(sizes[0])), wire, sizes[1..])
  }

  function ReadAll(rd: Reader, wire: seq<byte>, sizes: seq<nat>): Reader
    requires CanReadAll(rd, wire, sizes)
    decreases |sizes|
  {
    if sizes == [] then rd else ReadAll(Read(rd, wire, Chunk(sizes[0])), wire, sizes[1..])
  }

  /** Framing under any chunking: the frames handed on are a prefix of the frames
      offered to the sender; all of them once the whole stream has been read
      and no header came in pieces. */
  lemma {:induction false} Framing(rd: Reader, wire: seq<byte>, offered: seq<Buf>, sizes: seq<nat>)
    requires ReaderInv(rd, wire, offered) && CanReadAll(rd, wire, sizes)
    ensures var e := ReadAll(rd, wire, sizes);
            && ReaderInv(e, wire, offered)
            && e.delivered <= Frames(offered)
            && (!e.phase.Ended? && e.pos == |Flatten(offered)| ==> e.delivered == Frames(offered))
    decreases |sizes|
  {
    if sizes == [] {
      var n := |rd.delivered|;
      assert Frames(offered[..n]) <= Frames(offered);
      if n < |offered| {
        FrameAt(offered, n);
      } else {
        assert offered[..n] == offered;
      }
    } else {
      ReadKeepsInv(rd, wire, offered, Chunk(sizes[0]));
      Framing(Read(rd, wire, Chunk(sizes[0])), wire, offered, sizes[1..]);
    }
  }

  /** From the start of a connection: for every sequence of frames and every way
      the transport splits what it has delivered of them. */
  lemma {:induction false} FramingFromStart(wire: seq<byte>, offered: seq<Buf>, sizes: seq<nat>)
    requires Sendable(offered) && wire <= Flatten(offered) && CanReadAll(NEW_READER, wire, sizes)
    ensures var e := ReadAll(NEW_READER, wire, sizes);
            && e.delivered <= Frames(offered)
            && (!e.phase.Ended? && e.pos == |Flatten(offered)| ==> e.delivered == Frames(offered))
  {
    assert Flatten(offered[..0]) == [] && Frames(offered[..0]) == [];
    Framing(NEW_READER, wire, offered, sizes);
  }

  /** ssl_relay's reader as an object: frames go to the manager one by one. */
  class ReadLoop {
    var pos: nat
    var phase: Phase
    var delivered: seq<Frame>

    ghost function View(): Reader
      reads this
    {
      Reader(pos, phase, delivered)
    }

    constructor ()
      ensures View() == NEW_READER
    {
      pos, phase, delivered := 0, InHeader, [];
    }

    /** impl_start_read, up to the point where the next chunk is awaited. */
    method Run(wire: seq<byte>, sizes: seq<nat>)
      requires phase == InHeader && CanReadAll(View(), wire, sizes)
      modifies this
      ensures View() == ReadAll(old(View()), wire, sizes)
    {
      ghost var r0 := View();
      var i := 0;
      assert sizes[0..] == sizes;
      while i < |sizes|
        invariant i <= |sizes| && (i < |sizes| ==> phase == InHeader)
        invariant CanReadAll(View(), wire, sizes[i..]) && ReadAll(View(), wire, sizes[i..]) == ReadAll(r0, wire, sizes)
      {
        var k := sizes[i];
        assert sizes[i..][0] == k && sizes[i..][1..] == sizes[i + 1..];
        var header := wire[pos..pos + k];
        pos := pos + k;
        i := i + 1;
        if k != HEADER_SIZE || DecodeHeader(header).len > READ_BUFFER_SIZE {
          phase := Ended;
          return;
        }
        var h := DecodeHeader(header);
        var body := [];
        if h.len != 0 {
          phase := InBody(h, body);
          i, body := ReadBody(wire, sizes, i, h, r0);
          if |body| < h.len {
            return;
          }
        }
        phase := InHeader;
        delivered := delivered + [Frame(h.session, h.cmd, body)];
      }
    }

    /** async_read: reads on until the buffer is full. */
    method ReadBody(wire: seq<byte>, sizes: seq<nat>, start: nat, h: Header, ghost r0: Reader)
      returns (i: nat, body: seq<byte>)
      requires start <= |sizes| && 0 < h.len && phase == InBody(h, [])
      requires CanReadAll(r0, wire, sizes)
      requires CanReadAll(View(), wire, sizes[start..]) && ReadAll(View(), wire, sizes[start..]) == ReadAll(r0, wire, sizes)
      modifies this
      ensures start <= i <= |sizes| && |body| <= h.len && delivered == old(delivered)
      ensures |body| < h.len ==> View() == ReadAll(r0, wire, sizes)
      ensures |body| == h.len ==>
                && CanReadAll(Deliver(View(), h, body), wire, sizes[i..])
                && ReadAll(Deliver(View(), h, body), wire, sizes[i..]) == ReadAll(r0, wire, sizes)
    {
      i, body := start, [];
      while |body| < h.len
        invariant start <= i <= |sizes| && |body| <= h.len && delivered == old(delivered)
        invariant var r := if |body| < h.len then View() else Deliver(View(), h, body);
                  && (|body| < h.len ==> phase == InBody(h, body))
                  && CanReadAll(r, wire, sizes[i..]) && ReadAll(r, wire, sizes[i..]) == ReadAll(r0, wire, sizes)
        decreases |sizes| - i
      {
        if i == |sizes| {
          return;
        }
        var k := sizes[i];
        assert sizes[i..][0] == k && sizes[i..][1..] == sizes[i + 1..];
        body := body + wire[pos..pos + k];
        pos := pos + k;
        i := i + 1;
        phase := InBody(h, body);
      }
    }
  }
}
