/** When a TCP and a UDP session get the same number, and what happens then. */
module Collisions {
  import opened Bytes
  import opened RelayData
  import opened RelayQueue
  import opened Streams
  import opened Endpoints
  import opened EndpointInv
  import opened EndpointSteps
  import opened EndpointStrands
  import opened Sessions
  import opened EndMoves
  import opened SystemRuns
  import SessionIds
  import U = UdpTables

  /** No new relay and no new number. */
  predicate NothingNew(e: Endpoint, e': Endpoint) {
    && |e'.objs| == |e.objs| && SameObjs(e, e')
    && e'.udp.owners == e.udp.owners && e'.udp.session == e.udp.session
  }

  lemma NothingNewKeeps(w: World, w': World)
    requires NothingNew(w.local, w'.local) && Hypothesis(w)
    ensures Hypothesis(w')
  {
    forall i | 0 <= i < |w'.local.objs|
      ensures w'.local.objs[i].session !in w'.local.udp.owners
    {
      assert w'.local.objs[i].session == w.local.objs[i].session;
    }
  }

  lemma MostStepsAddNothing(e: Endpoint, st: Endpoints.Step)
    requires Endpoints.Enabled(e, st) && st != AcceptTcp && !st.AcceptUdp?
    ensures NothingNew(e, Endpoints.Do(e, st))
  {
    match st
    case Request(i) => AddRequestMoves(TakeRequest(e, i), e.objs[i].outbox[0]);
    case SslStep(k, q) =>
    case TimerTick(order) =>
      TimerMoves(e, order);
      TimerOwners(e, order);
    case SenderStep(x, act) =>
    case _ => ObjMoves(e, st);
  }

  lemma TimerOwners(e: Endpoint, order: seq<U.Client>)
    requires CanTick(e, order)
    ensures TimerTurn(e, order).udp.owners == e.udp.owners && TimerTurn(e, order).udp.session == e.udp.session
  {
    if SslIdle(e) && e.role == RemoteServer {
    } else {
      var u := if SslIdle(e) then U.Clear(e.udp) else e.udp;
      assert u.srcs == TickSources(e);
      assert U.Expire(u, order).owners == e.udp.owners;
    }
  }

  lemma ResponseAddsNothing(e: Endpoint, f: Frame)
    requires CanHandle(e, f) && e.role != RemoteServer && f.cmd != StartTcp
    ensures NothingNew(e, AddResponse(e, f))
  {
    hide OnDataTcp;
    var h := e.(handled := e.handled + [f]);
    match f.cmd
    case DataTcp =>
      DataMoves(h, f);
      DataOwners(h, f);
    case StopTcp => StopMoves(h, f);
    case _ =>
  }

  lemma DataOwners(e: Endpoint, f: Frame)
    requires TableOk(e) && SslOk(e)
    ensures OnDataTcp(e, f).udp == e.udp
  {
    var s := f.session;
    if s in e.relays && e.relays[s].Some? && e.objs[e.relays[s].value].relay.state == Stop {
      AddRequestMoves(e.(relays := e.relays - {s}), StopFrame(s));
    }
  }

  lemma UdpAccepted(e: Endpoint, src: U.Client, data: seq<byte>)
    requires SslOk(e) && e.udp.senders != []
    ensures var e' := SendUdpData(e, src, data);
            && e'.udp == U.FromClient(e.udp, src) && |e'.objs| == |e.objs| && SameObjs(e, e')
  {
    var u := U.FromClient(e.udp, src);
    AddRequestMoves(e.(udp := u), Frame(U.SessionOf(u, src), DataUdp, data));
  }

  lemma OneNumber(u: U.Udp, src: U.Client)
    requires u.senders != []
    ensures U.FromClient(u, src).owners.Keys <= u.owners.Keys + {u.session + 1}
  {
  }

  /** A UDP client's new number is above every TCP number given out. */
  lemma UdpNumberIsNew(w: World, src: U.Client, data: seq<byte>)
    requires WInv(w) && Hypothesis(w) && Sessions.Enabled(w, AtLocal(AcceptUdp(src, data)))
    requires Sessions.Do(w, AtLocal(AcceptUdp(src, data))).local.udp.session + 1 < Pow256(WORD)
    ensures Hypothesis(Sessions.Do(w, AtLocal(AcceptUdp(src, data))))
  {
    hide EInv, ConnOk, LocalHandled, SendUdpData, U.FromClient;
    UdpAccepted(w.local, src, data);
    OneNumber(w.local.udp, src);
    EInvNumbers(w.local, []);
    var e' := SendUdpData(w.local, src, data);
    forall i | 0 <= i < |e'.objs|
      ensures e'.objs[i].session !in e'.udp.owners
    {
      assert e'.objs[i].session == w.local.objs[i].session;
    }
  }

  lemma TcpNumber(w: World)
    requires WInv(w) && Hypothesis(w) && Sessions.Enabled(w, AtLocal(AcceptTcp))
    requires Sessions.Do(w, AtLocal(AcceptTcp)).local.udp.session + 1 < Pow256(WORD)
    ensures Hypothesis(Sessions.Do(w, AtLocal(AcceptTcp))) <==> w.local.udp.session !in w.local.udp.owners
  {
    hide ConnOk, LocalHandled, EInv;
    NextNumberIsNew(w);
    AcceptTcpKeeps(w.local);
    var e' := AddLocalTcp(w.local);
    var n := |w.local.objs|;
    assert e'.objs[n].session == w.local.udp.session;
    assert forall i | 0 <= i < n :: e'.objs[i] == w.local.objs[i];
  }

  lemma OthersKeepHypothesis(w: World, st: Sessions.Step)
    requires WInv(w) && Hypothesis(w) && Sessions.Enabled(w, st)
    requires st.AtLocal? ==> st.st != AcceptTcp && !st.st.AcceptUdp?
    ensures Hypothesis(Sessions.Do(w, st))
  {
    match st {
      case AtLocal(s) => MostStepsAddNothing(w.local, s);
      case DownHandle(c) =>
        var f := w.conns[c].down.delivered[w.conns[c].downDone];
        DownExpected(w, c, f);
        ResponseAddsNothing(w.local, f);
      case _ =>
    }
    NothingNewKeeps(w, Sessions.Do(w, st));
  }

  /** The hypothesis about numbers, as a guard on single steps: it first breaks
      when a TCP connection is accepted while the counter still stands at the
      number that a UDP client has just been given. */
  lemma CollisionExact(w: World, st: Sessions.Step)
    requires WInv(w) && Hypothesis(w) && Sessions.Enabled(w, st)
    requires Sessions.Do(w, st).local.udp.session + 1 < Pow256(WORD)
    ensures !Hypothesis(Sessions.Do(w, st)) <==> st == AtLocal(AcceptTcp) && w.local.udp.session in w.local.udp.owners
  {
    if st == AtLocal(AcceptTcp) {
      TcpNumber(w);
    } else if st.AtLocal? && st.st.AcceptUdp? {
      UdpNumberIsNew(w, st.st.src, st.st.data);
    } else {
      OthersKeepHypothesis(w, st);
    }
  }

  /** Both ways to get a number take it from the one counter as SessionIds says. */
  lemma NumbersGivenOut(e: Endpoint, src: U.Client)
    requires e.udp.senders != [] && e.udp.session !in e.relays
    ensures var e' := AddLocalTcp(e);
            && e'.objs[|e.objs|].session == SessionIds.IdOf(e.udp.session, SessionIds.Tcp)
            && e'.udp.session == e.udp.session + 1
    ensures var u' := U.FromClient(e.udp, src);
            if U.SessionOf(e.udp, src) == 0
            then U.SessionOf(u', src) == SessionIds.IdOf(e.udp.session, SessionIds.Udp) && u'.session == e.udp.session + 1
            else U.SessionOf(u', src) == U.SessionOf(e.udp, src) && u'.session == e.udp.session
  {
  }

  // ------------------------------------------- the hypothesis is needed

  /** A UDP client, then a TCP connection: the same number. */
  lemma SameNumber(src: U.Client, data: seq<byte>)
    ensures var e := SendUdpData(NewLocal(LocalTransparent), src, data);
            && 2 in e.udp.owners && SslOk(e)
            && AddLocalTcp(e).objs == [Obj(2, Fresh(RawTcp, false), NotStarted, false, [], None, [], [])]
  {
  }

  /** At the remote end, UDP data for the number of a TCP relay goes into that
      relay's stream, though no DATA_TCP has come. */
  lemma DatagramEntersStream(e: Endpoint, udp: Frame, v: nat)
    requires e.role == RemoteServer && udp.cmd == DataUdp && TableOk(e) && SslOk(e) && |udp.data| <= READ_BUFFER_SIZE
    requires udp.session in e.relays && e.relays[udp.session] == Some(v)
    requires v < |e.objs| && Tcp(e.objs[v]) && e.objs[v].relay.state != Stop
    ensures AddResponse(e, udp).objs[v].relay.offered == e.objs[v].relay.offered + [Buf(udp, udp.data)]
    ensures Datas(AddResponse(e, udp).handled, udp.session) == Datas(e.handled, udp.session)
  {
    DatasAppend(e.handled, udp, udp.session);
  }
}
