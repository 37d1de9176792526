/** What the invariant of the whole system means for the bytes of a session. */
module EndToEnd {
  import opened Bytes
  import opened RelayData
  import opened RelayQueue
  import opened SslReader
  import opened Streams
  import opened Endpoints
  import opened EndpointInv
  import opened Sessions
  import opened SystemRuns

  lemma {:induction false} FlattenIsPayload(bs: seq<Buf>)
    requires forall j | 0 <= j < |bs| :: bs[j].bytes == bs[j].frame.data
    ensures Flatten(bs) == Payload(Frames(bs))
  {
    if bs != [] {
      FlattenIsPayload(bs[1..]);
      assert Frames(bs)[1..] == Frames(bs[1..]);
    }
  }

  /** A TCP relay's socket has taken a prefix of the data handled for it. */
  lemma OutOfHandled(e: Endpoint, i: nat)
    requires EInv(e, []) && i < |e.objs| && Tcp(e.objs[i])
    ensures e.objs[i].relay.out <= Payload(Datas(e.handled, e.objs[i].session))
  {
    var r := e.objs[i].relay;
    assert ObjOk(e, i, []);
    forall j | 0 <= j < |r.offered|
      ensures r.offered[j].bytes == r.offered[j].frame.data
    {
      assert r.offered[j] == Load(RawTcp, r.offered[j].frame);
    }
    FlattenIsPayload(r.offered);
    PayloadPrefix(Frames(r.offered), Datas(e.handled, e.objs[i].session));
  }

  /** What connection c carries of a TCP relay's session, when nothing of it went
      before, is a prefix of what the relay read. */
  lemma CarriedOfRead(e: Endpoint, i: nat, c: nat, got: seq<Frame>)
    requires EInv(e, []) && i < |e.objs| && Tcp(e.objs[i]) && c < |e.ssls|
    requires Stream(Outgoing(e.ssls[..c]), e.objs[i].session) == []
    requires got <= Frames(e.ssls[c].offered)
    ensures Payload(Datas(got, e.objs[i].session)) <= e.objs[i].input
  {
    var o := e.objs[i];
    var s := o.session;
    var sent := Frames(e.ssls[c].offered);
    assert ObjOk(e, i, []);
    StreamsAddUp(e, i, c);
    assert Stream(sent, s) <= o.emitted;
    DatasPrefix(got, sent, s);
    DatasOfStream(sent, s);
    DatasPrefix(Stream(sent, s), o.emitted, s);
    PayloadPrefix(Datas(got, s), Datas(o.emitted, s));
  }

  /** End-to-end stream integrity. Whenever a remote relay and a local relay
      belong to the same session, each socket has taken a prefix of the bytes
      that were read from the other one: no gap, no reordering, nothing of
      another session, however often the TLS connection has been replaced. The
      remote relay connects to the destination the local side asked for. */
  lemma StreamIntegrity(w: World, c: nat, i: nat, l: nat)
    requires WInv(w) && c < |w.conns| && i < |w.conns[c].remote.objs| && Tcp(w.conns[c].remote.objs[i])
    requires l < |w.local.objs| && Tcp(w.local.objs[l]) && w.local.objs[l].session == w.conns[c].remote.objs[i].session
    ensures w.conns[c].remote.objs[i].relay.out <= w.local.objs[l].input
    ensures w.local.objs[l].relay.out <= w.conns[c].remote.objs[i].input
    ensures w.conns[c].remote.objs[i].dest == w.local.objs[l].dest
  {
    assert Hosts(w.conns[c], w.local.objs[l].session);
    HostCarriesStart(w, c, w.local.objs[l].session);
    StartIsFirst(w.local, c, w.local.objs[l].session, 0);
    UpIntegrity(w, c, i, l);
    DownIntegrity(w, c, i, l);
    SameDestination(w, c, i, l);
  }

  lemma UpIntegrity(w: World, c: nat, i: nat, l: nat)
    requires WInv(w) && c < |w.conns| && i < |w.conns[c].remote.objs| && Tcp(w.conns[c].remote.objs[i])
    requires l < |w.local.objs| && Tcp(w.local.objs[l]) && w.local.objs[l].session == w.conns[c].remote.objs[i].session
    requires Stream(Outgoing(w.local.ssls[..c]), w.local.objs[l].session) == []
    ensures w.conns[c].remote.objs[i].relay.out <= w.local.objs[l].input
  {
    assert ConnOk(w, c);
    OutOfHandled(w.conns[c].remote, i);
    HandledPrefix(w, c);
    CarriedOfRead(w.local, l, c, w.conns[c].remote.handled);
  }

  lemma DownIntegrity(w: World, c: nat, i: nat, l: nat)
    requires WInv(w) && c < |w.conns| && i < |w.conns[c].remote.objs| && Tcp(w.conns[c].remote.objs[i])
    requires l < |w.local.objs| && Tcp(w.local.objs[l]) && w.local.objs[l].session == w.conns[c].remote.objs[i].session
    ensures w.local.objs[l].relay.out <= w.conns[c].remote.objs[i].input
  {
    hide ReaderInv, ObjOk;
    var s := w.local.objs[l].session;
    var k := w.conns[c];
    assert ConnOk(w, c) && LocalHandled(w, s) && Hosts(k, s);
    OutOfHandled(w.local, l);
    var got := k.down.delivered[..k.downDone];
    DatasOfStream(w.local.handled, s);
    DatasOfStream(got, s);
    HandledPrefix(w, c);
    assert k.remote.ssls[..0] == [];
    assert got <= Frames(k.remote.ssls[0].offered);
    CarriedOfRead(k.remote, i, 0, got);
  }

  lemma SameDestination(w: World, c: nat, i: nat, l: nat)
    requires WInv(w) && c < |w.conns| && i < |w.conns[c].remote.objs| && Tcp(w.conns[c].remote.objs[i])
    requires l < |w.local.objs| && Tcp(w.local.objs[l]) && w.local.objs[l].session == w.conns[c].remote.objs[i].session
    requires Stream(Outgoing(w.local.ssls[..c]), w.local.objs[l].session) == []
    ensures w.conns[c].remote.objs[i].dest == w.local.objs[l].dest
  {
    hide ReaderInv, RelayOk, Served, LocalHandled;
    var s := w.local.objs[l].session;
    assert ConnOk(w, c) && ObjOk(w.conns[c].remote, i, []) && ObjOk(w.local, l, []);
    HandledPrefix(w, c);
    StreamPrefix(w.conns[c].remote.handled, Frames(w.local.ssls[c].offered), s);
    StreamsAddUp(w.local, l, c);
    assert Stream(w.conns[c].remote.handled, s)[0] == w.local.objs[l].emitted[0];
  }

  /** Until a remote end has a relay for the session, nothing comes back. */
  lemma NothingFromNowhere(w: World, l: nat)
    requires WInv(w) && l < |w.local.objs| && Tcp(w.local.objs[l])
    requires forall c | 0 <= c < |w.conns| :: !Hosts(w.conns[c], w.local.objs[l].session)
    ensures w.local.objs[l].relay.out == []
  {
    var s := w.local.objs[l].session;
    assert LocalHandled(w, s);
    OutOfHandled(w.local, l);
    DatasOfStream(w.local.handled, s);
  }

  /** Every remote TCP relay answers to exactly one local relay, and no other
      connection has one for the same session. */
  lemma OneToOne(w: World, c: nat, i: nat)
    requires WInv(w) && c < |w.conns| && i < |w.conns[c].remote.objs| && Tcp(w.conns[c].remote.objs[i])
    ensures var s := w.conns[c].remote.objs[i].session;
            && (exists l | 0 <= l < |w.local.objs| :: w.local.objs[l].session == s)
            && (forall l, m | 0 <= l < m < |w.local.objs| :: w.local.objs[l].session != w.local.objs[m].session)
            && (forall d | 0 <= d < |w.conns| && Hosts(w.conns[d], s) :: d == c)
            && (forall j | 0 <= j < |w.conns[c].remote.objs| && Tcp(w.conns[c].remote.objs[j])
                           && w.conns[c].remote.objs[j].session == s :: j == i)
  {
    var s := w.conns[c].remote.objs[i].session;
    assert Hosts(w.conns[c], s);
    HostedIsLocal(w, c, s);
    var l :| 0 <= l < |w.local.objs| && Tcp(w.local.objs[l]) && w.local.objs[l].session == s;
    forall d | 0 <= d < |w.conns| && Hosts(w.conns[d], s)
      ensures d == c
    {
      OneHost(w, c, d, s);
    }
    assert ConnOk(w, c);
    forall l, m | 0 <= l < m < |w.local.objs|
      ensures w.local.objs[l].session != w.local.objs[m].session
    {
      assert Tcp(w.local.objs[l]) && Tcp(w.local.objs[m]);
    }
  }

  // ------------------------------------------------------------ in every run

  /** Both directions of every session that has relays at both ends. */
  ghost predicate Intact(w: World) {
    forall c, i, l | 0 <= c < |w.conns| && 0 <= i < |w.conns[c].remote.objs| && 0 <= l < |w.local.objs| ::
      Tcp(w.conns[c].remote.objs[i]) && w.local.objs[l].session == w.conns[c].remote.objs[i].session ==>
        && w.conns[c].remote.objs[i].relay.out <= w.local.objs[l].input
        && w.local.objs[l].relay.out <= w.conns[c].remote.objs[i].input
        && w.conns[c].remote.objs[i].dest == w.local.objs[l].dest
  }

  lemma IsIntact(w: World)
    requires WInv(w)
    ensures Intact(w)
  {
    forall c, i, l | 0 <= c < |w.conns| && 0 <= i < |w.conns[c].remote.objs| && 0 <= l < |w.local.objs|
                     && Tcp(w.conns[c].remote.objs[i]) && w.local.objs[l].session == w.conns[c].remote.objs[i].session
      ensures w.conns[c].remote.objs[i].relay.out <= w.local.objs[l].input
      ensures w.local.objs[l].relay.out <= w.conns[c].remote.objs[i].input
      ensures w.conns[c].remote.objs[i].dest == w.local.objs[l].dest
    {
      StreamIntegrity(w, c, i, l);
    }
  }

  /** The headline: in every state of every behaviour of the system, whatever
      the two ends, their sockets and the transport do. */
  lemma {:induction false} AlwaysIntact(role: Role, ws: seq<World>, sts: seq<Sessions.Step>, i: nat)
    requires CleanBehaviour(ws, sts) && role != RemoteServer && ws[0] == Initial(role)
    requires Hypothesis(ws[|sts|]) && i <= |sts|
    ensures Intact(ws[i])
  {
    hide Next, Hypothesis, WInv, Intact;
    Always(role, ws, sts, i);
    IsIntact(ws[i]);
  }
}
