/** The frames of one session in a mixed sequence of frames. */
module Streams {
  import opened Bytes
  import opened RelayData

  function Filter(p: Frame -> bool, fs: seq<Frame>): seq<Frame> {
    if fs == [] then [] else (if p(fs[0]) then [fs[0]] else []) + Filter(p, fs[1..])
  }

  /** START_TCP and DATA_TCP of a session: what its byte stream is made of. */
  predicate OfSession(s: nat, f: Frame) {
    f.session == s && f.cmd in {StartTcp, DataTcp}
  }

  predicate DataOf(s: nat, f: Frame) {
    f.session == s && f.cmd == DataTcp
  }

  function Stream(fs: seq<Frame>, s: nat): seq<Frame> {
    Filter(f => OfSession(s, f), fs)
  }

  function Datas(fs: seq<Frame>, s: nat): seq<Frame> {
    Filter(f => DataOf(s, f), fs)
  }

  /** The bytes DATA_TCP frames carry. */
  function Payload(fs: seq<Frame>): seq<byte> {
    if fs == [] then [] else fs[0].data + Payload(fs[1..])
  }

  lemma {:induction false} FilterSplit(p: Frame -> bool, a: seq<Frame>, b: seq<Frame>)
    ensures Filter(p, a + b) == Filter(p, a) + Filter(p, b)
  {
    if a == [] {
      assert a + b == b;
    } else {
      FilterSplit(p, a[1..], b);
      assert (a + b)[1..] == a[1..] + b;
      Associative(if p(a[0]) then [a[0]] else [], Filter(p, a[1..]), Filter(p, b));
    }
  }

  lemma FilterOne(p: Frame -> bool, f: Frame)
    ensures Filter(p, [f]) == if p(f) then [f] else []
  {
    assert [f][1..] == [];
  }

  lemma FilterPrefix(p: Frame -> bool, a: seq<Frame>, b: seq<Frame>)
    requires a <= b
    ensures Filter(p, a) <= Filter(p, b)
  {
    assert b == a + b[|a|..];
    FilterSplit(p, a, b[|a|..]);
  }

  lemma {:induction false} FilterTwice(q: Frame -> bool, p: Frame -> bool, fs: seq<Frame>)
    requires forall f :: q(f) ==> p(f)
    ensures Filter(q, Filter(p, fs)) == Filter(q, fs)
  {
    if fs != [] {
      FilterTwice(q, p, fs[1..]);
      var h := if p(fs[0]) then [fs[0]] else [];
      FilterSplit(q, h, Filter(p, fs[1..]));
      FilterOne(q, fs[0]);
    }
  }

  // ---------------------------------------------- the same, for one session

  lemma StreamSplit(a: seq<Frame>, b: seq<Frame>, s: nat)
    ensures Stream(a + b, s) == Stream(a, s) + Stream(b, s)
  {
    FilterSplit(f => OfSession(s, f), a, b);
  }

  lemma StreamOne(f: Frame, s: nat)
    ensures Stream([f], s) == if OfSession(s, f) then [f] else []
  {
    FilterOne(g => OfSession(s, g), f);
  }

  lemma StreamAppend(a: seq<Frame>, f: Frame, s: nat)
    ensures Stream(a + [f], s) == if OfSession(s, f) then Stream(a, s) + [f] else Stream(a, s)
  {
    StreamSplit(a, [f], s);
    StreamOne(f, s);
  }

  lemma DatasAppend(a: seq<Frame>, f: Frame, s: nat)
    ensures Datas(a + [f], s) == if DataOf(s, f) then Datas(a, s) + [f] else Datas(a, s)
  {
    FilterSplit(g => DataOf(s, g), a, [f]);
    FilterOne(g => DataOf(s, g), f);
  }

  lemma StreamPrefix(a: seq<Frame>, b: seq<Frame>, s: nat)
    requires a <= b
    ensures Stream(a, s) <= Stream(b, s)
  {
    FilterPrefix(f => OfSession(s, f), a, b);
  }

  lemma DatasPrefix(a: seq<Frame>, b: seq<Frame>, s: nat)
    requires a <= b
    ensures Datas(a, s) <= Datas(b, s)
  {
    FilterPrefix(f => DataOf(s, f), a, b);
  }

  lemma DatasOfStream(fs: seq<Frame>, s: nat)
    ensures Datas(Stream(fs, s), s) == Datas(fs, s)
  {
    FilterTwice(f => DataOf(s, f), f => OfSession(s, f), fs);
  }

  lemma {:induction false} PayloadSplit(a: seq<Frame>, b: seq<Frame>)
    ensures Payload(a + b) == Payload(a) + Payload(b)
  {
    if a == [] {
      assert a + b == b;
    } else {
      PayloadSplit(a[1..], b);
      assert (a + b)[1..] == a[1..] + b;
      Associative(a[0].data, Payload(a[1..]), Payload(b));
    }
  }

  lemma PayloadOne(f: Frame)
    ensures Payload([f]) == f.data
  {
    assert [f][1..] == [];
  }

  lemma PayloadPrefix(a: seq<Frame>, b: seq<Frame>)
    requires a <= b
    ensures Payload(a) <= Payload(b)
  {
    assert b == a + b[|a|..];
    PayloadSplit(a, b[|a|..]);
  }
}
