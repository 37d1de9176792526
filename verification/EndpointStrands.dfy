/** The steps of the relays' own strands, of the acceptors and of the timer keep
    an endpoint's invariant. */
module EndpointStrands {
  import opened Bytes
  import opened RelayData
  import opened RelayQueue
  import opened SslReader
  import opened Streams
  import opened Endpoints
  import opened EndpointInv
  import opened EndpointSteps
  import A = Addresses
  import U = UdpTables

  /** Before its dial is over, only the manager stops a dialling relay. */
  lemma PreStartQuiet(r: Relay, st: RelayQueue.Step)
    requires Inv(r) && r.dials && RelayQueue.Enabled(r, st) && !Apply(r, st).startDone
    requires !r.late
    ensures Apply(r, st).stopCalled == r.stopCalled
  {
    match st
    case Receive =>
      match r.inbox[0] {
        case Halt => assert Halt in r.inbox;
        case Send(b) => if r.state == Stop {} else {}
      }
    case RunStop =>
    case _ =>
  }

  lemma RelayStepOk(r: Relay, inTable: bool, st: RelayQueue.Step)
    requires RelayOk(r, inTable) && RelayQueue.Enabled(r, st)
    ensures RelayOk(Apply(r, st), inTable)
    ensures Apply(r, st).offered == r.offered && Apply(r, st).kind == r.kind && Apply(r, st).dials == r.dials
    ensures r.startDone ==> Apply(r, st).startDone
  {
    StepKeepsInv(r, st);
    StepFrame(r, st);
    if r.dials && !Apply(r, st).startDone {
      PreStartQuiet(r, st);
    }
  }

  /** One object in a new state, same table. */
  lemma SetObjKeeps(e: Endpoint, i: nat, o: Obj, pend: seq<Frame>, pend': seq<Frame>)
    requires EInv(e, pend) && i < |e.objs|
    requires o.session == e.objs[i].session && o.relay.kind == e.objs[i].relay.kind
    requires ObjOk(SetObj(e, i, o), i, pend')
    requires forall s: nat | s != o.session || !Tcp(o) ::
               Stream(Outgoing(e.ssls) + pend', s) == Stream(Outgoing(e.ssls) + pend, s)
    requires e.role != RemoteServer ==> UdpOwned(Outgoing(e.ssls) + pend', e.udp.owners.Keys)
    ensures EInv(SetObj(e, i, o), pend')
  {
    hide RelayOk, Emits, Served, Started;
    var e' := SetObj(e, i, o);
    NoTcpSame(e, e');
    TableShrinks(e, e');
    SetObjLocal(e, i, o, pend, pend');
    forall j | 0 <= j < |e'.objs|
      ensures ObjOk(e', j, pend')
    {
      if j != i {
        OtherObjOk(e, e', i, j, pend, pend');
      }
    }
    StrayAfter(e, e', i, pend, pend');
  }

  lemma SetObjLocal(e: Endpoint, i: nat, o: Obj, pend: seq<Frame>, pend': seq<Frame>)
    requires LocalOnly(e, pend) && Numbered(e) && i < |e.objs|
    requires o.session == e.objs[i].session && o.relay.kind == e.objs[i].relay.kind
    requires e.role != RemoteServer ==> UdpOwned(Outgoing(e.ssls) + pend', e.udp.owners.Keys)
    ensures LocalOnly(SetObj(e, i, o), pend') && Numbered(SetObj(e, i, o))
  {
    var e' := SetObj(e, i, o);
    assert forall j | 0 <= j < |e'.objs| :: e'.objs[j] == if j == i then o else e.objs[j];
  }

  lemma StrayAfter(e: Endpoint, e': Endpoint, i: nat, pend: seq<Frame>, pend': seq<Frame>)
    requires NoStray(e, pend) && i < |e.objs| && e'.ssls == e.ssls
    requires forall s: nat :: NoTcp(e', s) <==> NoTcp(e, s)
    requires forall s: nat | s != e.objs[i].session || !Tcp(e.objs[i]) ::
               Stream(Outgoing(e.ssls) + pend', s) == Stream(Outgoing(e.ssls) + pend, s)
    ensures NoStray(e', pend')
  {
    forall s: nat | NoTcp(e', s)
      ensures Stream(Outgoing(e'.ssls) + pend', s) == []
    {
      assert NoTcp(e, s);
      assert Tcp(e.objs[i]) ==> e.objs[i].session != s;
    }
  }

  lemma OtherObjOk(e: Endpoint, e': Endpoint, i: nat, j: nat, pend: seq<Frame>, pend': seq<Frame>)
    requires EInv(e, pend) && i < |e.objs| && j < |e.objs| && i != j
    requires e' == e.(objs := e'.objs) && |e'.objs| == |e.objs| && e'.objs[j] == e.objs[j]
    requires forall s: nat | s != e.objs[i].session || !Tcp(e.objs[i]) ::
               Stream(Outgoing(e.ssls) + pend', s) == Stream(Outgoing(e.ssls) + pend, s)
    ensures ObjOk(e', j, pend')
  {
    assert ObjOk(e, j, pend);
    if Tcp(e.objs[j]) && Tcp(e.objs[i]) {
      assert e.objs[i].session != e.objs[j].session;
    }
  }

  /** A strand step that posts nothing. */
  lemma ObjStepKeeps(e: Endpoint, i: nat, q: RelayQueue.Step)
    requires EInv(e, []) && i < |e.objs| && CanStep(e, e.objs[i], q)
    ensures EInv(SetObj(e, i, ObjAfter(e.objs[i], q, Socks(e, e.objs[i]))), [])
  {
    var o := e.objs[i];
    assert ObjOk(e, i, []);
    RelayStepOk(o.relay, InTable(e, i), q);
    ObjAfterOk(e, i, q);
    SetObjKeeps(e, i, ObjAfter(o, q, Socks(e, o)), [], []);
  }

  lemma ObjAfterOk(e: Endpoint, i: nat, q: RelayQueue.Step)
    requires i < |e.objs| && CanStep(e, e.objs[i], q) && ObjOk(e, i, [])
    requires RelayOk(Apply(e.objs[i].relay, q), InTable(e, i))
    requires Apply(e.objs[i].relay, q).offered == e.objs[i].relay.offered
    requires Apply(e.objs[i].relay, q).kind == e.objs[i].relay.kind && Apply(e.objs[i].relay, q).dials == e.objs[i].relay.dials
    requires e.objs[i].relay.startDone ==> Apply(e.objs[i].relay, q).startDone
    ensures ObjOk(SetObj(e, i, ObjAfter(e.objs[i], q, Socks(e, e.objs[i]))), i, [])
  {
    var e' := SetObj(e, i, ObjAfter(e.objs[i], q, Socks(e, e.objs[i])));
    assert e'.objs[i] == ObjAfter(e.objs[i], q, Socks(e, e.objs[i]));
    assert InTable(e', i) <==> InTable(e, i);
  }

  // --------------------------------------------- steps that post to the manager

  /** The object after its strand posts f: a stream frame is also emitted. */
  function Emit(o: Obj, f: Frame): Obj {
    if OfSession(o.session, f) then o.(outbox := o.outbox + [f], emitted := o.emitted + [f])
    else o.(outbox := o.outbox + [f])
  }

  lemma EmitConserves(o: Obj, f: Frame, posted: seq<Frame>)
    requires Conserved(o, posted)
    ensures Conserved(Emit(o, f), posted)
  {
    StreamAppend(o.outbox, f, o.session);
    Associative(posted, Stream(o.outbox, o.session), [f]);
  }

  lemma EmitOutbox(o: Obj, f: Frame)
    requires OutboxOk(o) && WellFormed(f) && f.session == o.session
    requires if Tcp(o) then f.cmd in {StartTcp, DataTcp, StopTcp} else f.cmd == DataUdp
    ensures OutboxOk(Emit(o, f))
  {
  }

  /** The parts of ObjOk an emitting step has to show. */
  lemma EmitKeeps(e: Endpoint, i: nat, f: Frame, o: Obj)
    requires EInv(e, []) && i < |e.objs|
    requires o == Emit(e.objs[i], f).(relay := o.relay, loop := o.loop, replying := o.replying, dest := o.dest, input := o.input)
    requires WellFormed(f) && f.session == o.session
    requires if Tcp(o) then f.cmd in {StartTcp, DataTcp, StopTcp} else f.cmd == DataUdp
    requires RelayOk(o.relay, InTable(e, i)) && o.relay.offered == e.objs[i].relay.offered
    requires o.relay.kind == e.objs[i].relay.kind && o.relay.dials == e.objs[i].relay.dials
    requires o.relay.dials && o.loop == Reading ==> o.relay.startDone
    requires Tcp(o) ==> Emits(o, e.role == RemoteServer)
    requires Tcp(o) && e.role == RemoteServer ==> o.dest == e.objs[i].dest
    ensures EInv(SetObj(e, i, o), [])
  {
    hide RelayOk, Emits, NoStray, Distinct;
    var e' := SetObj(e, i, o);
    assert ObjOk(e, i, []);
    EmitOutbox(e.objs[i], f);
    assert InTable(e', i) <==> InTable(e, i);
    if Tcp(o) {
      EmitConserves(e.objs[i], f, Stream(Outgoing(e.ssls) + [], o.session));
    }
    SetObjKeeps(e, i, o, [], []);
  }

  lemma EmitStartKeeps(e: Endpoint, i: nat, data: seq<byte>)
    requires EInv(e, []) && i < |e.objs| && CanEmitStart(e, e.objs[i], data)
    ensures EInv(SetObj(e, i, StartEmitted(e.objs[i], data)), [])
  {
    assert ObjOk(e, i, []);
    StartIsEmitted(e.objs[i], data);
    FirstEmitKeeps(e, i, Frame(e.objs[i].session, StartTcp, data), StartEmitted(e.objs[i], data).dest);
  }

  lemma StartIsEmitted(o: Obj, data: seq<byte>)
    requires |data| <= READ_BUFFER_SIZE && DestOf(data).Ok? && o.session < Pow256(WORD)
    ensures var f := Frame(o.session, StartTcp, data);
            && WellFormed(f)
            && StartEmitted(o, data) == Emit(o, f).(dest := Some(DestOf(f.data).dest), loop := Reading)
  {
  }

  lemma FirstEmitKeeps(e: Endpoint, i: nat, f: Frame, dest: Option<A.Dest>)
    requires EInv(e, []) && i < |e.objs| && Tcp(e.objs[i]) && e.role != RemoteServer
    requires e.objs[i].loop == NotStarted && !e.objs[i].relay.startDone && !e.objs[i].relay.dials
    requires WellFormed(f) && f.cmd == StartTcp && f.session == e.objs[i].session && dest == Some(DestOf(f.data).dest)
    ensures EInv(SetObj(e, i, Emit(e.objs[i], f).(dest := dest, loop := Reading)), [])
  {
    assert ObjOk(e, i, []);
    StartEmits(e.objs[i], f);
    EmitKeeps(e, i, f, Emit(e.objs[i], f).(dest := dest, loop := Reading));
  }

  lemma StartEmits(o: Obj, f: Frame)
    requires Emits(o, false) && o.loop == NotStarted && WellFormed(f) && f.cmd == StartTcp && f.session == o.session
    ensures Emits(Emit(o, f).(dest := Some(DestOf(f.data).dest), loop := Reading), false)
  {
    DatasAppend(o.emitted, f, o.session);
    assert o.emitted + [f] == [f];
  }

  lemma ReadSomeEmits(o: Obj, f: Frame, remote: bool)
    requires Emits(o, remote) && o.loop == Reading && WellFormed(f) && DataOf(o.session, f)
    ensures Emits(Emit(o, f).(input := o.input + f.data), remote)
  {
    hide WellFormed;
    DatasAppend(o.emitted, f, o.session);
    PayloadSplit(Datas(o.emitted, o.session), [f]);
    PayloadOne(f);
    var em := o.emitted + [f];
    assert forall j | 0 <= j < |em| :: em[j] == if j < |o.emitted| then o.emitted[j] else f;
  }

  lemma ReadSomeKeeps(e: Endpoint, i: nat, data: seq<byte>)
    requires EInv(e, []) && i < |e.objs| && CanReadSome(e.objs[i], data)
    ensures EInv(SetObj(e, i, HasRead(e.objs[i], data)), [])
  {
    hide NoStray, Distinct, Conserved, Served, Started;
    var o := e.objs[i];
    assert ObjOk(e, i, []);
    var f := Frame(o.session, DataTcp, data);
    ReadSomeEmits(o, f, e.role == RemoteServer);
    CountersIrrelevant(o.relay, TIMEOUT);
    EmitKeeps(e, i, f, Emit(o, f).(input := o.input + data, relay := ResetTimeout(o.relay)));
  }

  /** A read loop or a start coroutine of a TCP relay ends with STOP_TCP. */
  lemma StopEmits(e: Endpoint, i: nat, r: Relay)
    requires EInv(e, []) && i < |e.objs| && Tcp(e.objs[i])
    requires RelayOk(r, InTable(e, i)) && r.offered == e.objs[i].relay.offered
    requires r.kind == e.objs[i].relay.kind && r.dials == e.objs[i].relay.dials
    ensures EInv(SetObj(e, i, Emit(e.objs[i], StopFrame(e.objs[i].session)).(loop := Over, relay := r)), [])
  {
    hide NoStray, Distinct, Conserved, Served, Started, RelayOk;
    assert ObjOk(e, i, []);
    EmitKeeps(e, i, StopFrame(e.objs[i].session), Emit(e.objs[i], StopFrame(e.objs[i].session)).(loop := Over, relay := r));
  }

  /** A UDP relay's receive loop just ends. */
  lemma UdpLoopEnds(e: Endpoint, i: nat, r: Relay)
    requires EInv(e, []) && i < |e.objs| && !Tcp(e.objs[i])
    requires RelayOk(r, InTable(e, i)) && r.kind == e.objs[i].relay.kind && r.dials == e.objs[i].relay.dials
    ensures EInv(SetObj(e, i, e.objs[i].(loop := Over, relay := r)), [])
  {
    assert ObjOk(e, i, []);
    assert InTable(SetObj(e, i, e.objs[i].(loop := Over, relay := r)), i) <==> InTable(e, i);
    SetObjKeeps(e, i, e.objs[i].(loop := Over, relay := r), [], []);
  }

  lemma ReadFailsKeeps(e: Endpoint, i: nat)
    requires EInv(e, []) && i < |e.objs| && CanReadFail(e.objs[i])
    ensures EInv(SetObj(e, i, ReadFailed(e.objs[i])), [])
  {
    var o := e.objs[i];
    var r := Apply(o.relay, CallStop);
    ObjRelayOk(e, i);
    RelayStepOk(o.relay, InTable(e, i), CallStop);
    if Tcp(o) {
      assert ReadFailed(o) == Emit(o, StopFrame(o.session)).(loop := Over, relay := r);
      StopEmits(e, i, r);
    } else {
      assert ReadFailed(o) == o.(loop := Over, relay := r);
      UdpLoopEnds(e, i, r);
    }
  }

  /** A failed SOCKS reply: STOP_TCP and a stop, the read loop goes on. */
  lemma ReplyEndsKeeps(e: Endpoint, i: nat, ok: bool)
    requires EInv(e, []) && i < |e.objs| && CanEndReply(e.objs[i])
    ensures EInv(SetObj(e, i, ReplyEnded(e.objs[i], ok)), [])
  {
    var o := e.objs[i];
    ObjRelayOk(e, i);
    if ok {
      ReplyIrrelevant(e, i);
    } else {
      var r := Apply(o.relay, CallStop);
      RelayStepOk(o.relay, InTable(e, i), CallStop);
      assert ReplyEnded(o, ok) == Emit(o, StopFrame(o.session)).(replying := false, relay := r);
      ReplyStops(e, i, r);
    }
  }

  lemma ReplyIrrelevant(e: Endpoint, i: nat)
    requires EInv(e, []) && i < |e.objs|
    ensures EInv(SetObj(e, i, e.objs[i].(replying := false)), [])
  {
    hide NoStray, Distinct, RelayOk, OutboxOk, TcpOk;
    var o := e.objs[i].(replying := false);
    assert ObjOk(e, i, []);
    ReplyParts(e.objs[i]);
    ReplyTcp(e.objs[i], InTable(e, i), e.role == RemoteServer, Outgoing(e.ssls) + [], e.handled);
    assert InTable(SetObj(e, i, o), i) <==> InTable(e, i);
    SetObjKeeps(e, i, o, [], []);
  }

  lemma ReplyParts(o: Obj)
    ensures OutboxOk(o) ==> OutboxOk(o.(replying := false))
  {
  }

  lemma ReplyTcp(o: Obj, inTable: bool, remote: bool, posted: seq<Frame>, handled: seq<Frame>)
    ensures TcpOk(o, inTable, remote, posted, handled) ==> TcpOk(o.(replying := false), inTable, remote, posted, handled)
  {
  }

  lemma ReplyStops(e: Endpoint, i: nat, r: Relay)
    requires EInv(e, []) && i < |e.objs| && Tcp(e.objs[i])
    requires RelayOk(r, InTable(e, i)) && r.offered == e.objs[i].relay.offered
    requires r.kind == e.objs[i].relay.kind && r.dials == e.objs[i].relay.dials
    requires e.objs[i].relay.startDone ==> r.startDone
    ensures EInv(SetObj(e, i, Emit(e.objs[i], StopFrame(e.objs[i].session)).(replying := false, relay := r)), [])
  {
    hide NoStray, Distinct, Conserved, Served, Started, RelayOk;
    assert ObjOk(e, i, []);
    EmitKeeps(e, i, StopFrame(e.objs[i].session),
              Emit(e.objs[i], StopFrame(e.objs[i].session)).(replying := false, relay := r));
  }

  lemma ObjRelayOk(e: Endpoint, i: nat)
    requires EInv(e, []) && i < |e.objs|
    ensures RelayOk(e.objs[i].relay, InTable(e, i))
    ensures Tcp(e.objs[i]) && e.role != RemoteServer && e.objs[i].loop == NotStarted ==> e.objs[i].emitted == []
  {
    assert ObjOk(e, i, []);
  }

  lemma StartFailsKeeps(e: Endpoint, i: nat)
    requires EInv(e, []) && i < |e.objs| && CanStartFail(e.objs[i])
    ensures EInv(SetObj(e, i, StartFailed(e.objs[i])), [])
  {
    var o := e.objs[i];
    var r := Apply(o.relay, StartFail);
    ObjRelayOk(e, i);
    RelayStepOk(o.relay, InTable(e, i), StartFail);
    assert StartFailed(o) == Emit(o, StopFrame(o.session)).(loop := Over, relay := r);
    StopEmits(e, i, r);
  }

  lemma RecvFromKeeps(e: Endpoint, i: nat, peer: A.SockAddr, stale: seq<byte>, data: seq<byte>)
    requires EInv(e, []) && i < |e.objs| && CanRecv(e.objs[i], peer, stale, data)
    ensures EInv(SetObj(e, i, HasReceived(e.objs[i], peer, stale, data)), [])
  {
    var o := e.objs[i];
    assert ObjOk(e, i, []);
    var f := DatagramFrame(o.session, peer, data, stale);
    DatagramRoundTrip(o.session, peer, data, stale);
    EmitKeeps(e, i, f, Emit(o, f));
  }

  /** The next posted request is on its way to the TLS connection. */
  lemma TakeRequestKeeps(e: Endpoint, i: nat)
    requires EInv(e, []) && i < |e.objs| && e.objs[i].outbox != []
    ensures EInv(TakeRequest(e, i), [e.objs[i].outbox[0]])
  {
    hide RelayOk;
    var o := e.objs[i];
    var f := o.outbox[0];
    var o' := o.(outbox := o.outbox[1..]);
    assert ObjOk(e, i, []);
    assert Outgoing(e.ssls) + [] == Outgoing(e.ssls);
    forall s: nat | s != o.session || !Tcp(o)
      ensures Stream(Outgoing(e.ssls) + [f], s) == Stream(Outgoing(e.ssls) + [], s)
    {
      StreamAppend(Outgoing(e.ssls), f, s);
    }
    TakeObjOk(e, i);
    SetObjKeeps(e, i, o', [], [f]);
  }

  lemma TakeObjOk(e: Endpoint, i: nat)
    requires i < |e.objs| && ObjOk(e, i, []) && e.objs[i].outbox != []
    ensures ObjOk(TakeRequest(e, i), i, [e.objs[i].outbox[0]])
  {
    hide RelayOk;
    var o := e.objs[i];
    var o' := o.(outbox := o.outbox[1..]);
    assert Outgoing(e.ssls) + [] == Outgoing(e.ssls);
    assert o.outbox == [o.outbox[0]] + o'.outbox;
    assert InTable(SetObj(e, i, o'), i) <==> InTable(e, i);
    if Tcp(o) {
      TakeConserves(o, o.outbox[0], o', Outgoing(e.ssls));
    }
  }

  lemma TakeConserves(o: Obj, f: Frame, o': Obj, out: seq<Frame>)
    requires o.outbox == [f] + o'.outbox && o'.session == o.session && o'.emitted == o.emitted
    requires Conserved(o, Stream(out, o.session))
    ensures Conserved(o', Stream(out + [f], o.session))
  {
    var s := o.session;
    StreamSplit([f], o'.outbox, s);
    StreamSplit(out, [f], s);
    Associative(Stream(out, s), Stream([f], s), Stream(o'.outbox, s));
  }

  lemma RequestKeeps(e: Endpoint, i: nat)
    requires EInv(e, []) && i < |e.objs| && e.objs[i].outbox != [] && (e.role == RemoteServer ==> e.ssl.Some?)
    ensures SslOk(e) && EInv(AddRequest(TakeRequest(e, i), e.objs[i].outbox[0]), [])
  {
    assert ObjOk(e, i, []);
    TakeRequestKeeps(e, i);
    AddRequestKeeps(TakeRequest(e, i), e.objs[i].outbox[0]);
  }

  // --------------------------------------------------- connections, acceptors

  lemma SslStepKeeps(e: Endpoint, k: nat, q: RelayQueue.Step)
    requires EInv(e, []) && k < |e.ssls| && RelayQueue.Enabled(e.ssls[k], q) && Clean(e.ssls[k], q)
    ensures EInv(SetSsl(e, k, Apply(e.ssls[k], q)), [])
  {
    var r := Apply(e.ssls[k], q);
    assert SslRelayOk(e.ssls[k]);
    StepKeepsInv(e.ssls[k], q);
    StepFrame(e.ssls[k], q);
    SetSslKeeps(e, k, r);
  }

  lemma SetSslKeeps(e: Endpoint, k: nat, r: Relay)
    requires EInv(e, []) && k < |e.ssls| && SslRelayOk(r) && r.offered == e.ssls[k].offered
    ensures EInv(SetSsl(e, k, r), [])
  {
    SslSet(e, k, r);
    OutgoingSame(e.ssls, e.ssls[k := r]);
    SslChange(e, e.(ssls := e.ssls[k := r]), [], []);
  }

  lemma AcceptTcpKeeps(e: Endpoint)
    requires EInv(e, []) && e.role != RemoteServer && e.udp.session < Pow256(WORD)
    requires Datas(e.handled, e.udp.session) == []
    ensures EInv(AddLocalTcp(e), [])
    ensures e.udp.session !in e.relays
  {
    var s := e.udp.session;
    assert s !in e.relays && NoTcp(e, s);
    var e1 := e.(udp := U.NextTcp(e.udp));
    UdpIrrelevant(e, e1.udp, []);
    NoTcpSame(e, e1);
    var o := Obj(s, Fresh(RawTcp, false), NotStarted, false, [], None, [], []);
    FreshOk(RawTcp, false);
    assert Outgoing(e.ssls) + [] == Outgoing(e.ssls);
    assert Stream(Outgoing(e.ssls), s) == [];
    assert Frames(o.relay.offered) == [];
    AddObjKeeps(e1, o);
    assert WithObj(e1, o) == AddLocalTcp(e);
  }

  lemma AcceptUdpKeeps(e: Endpoint, src: U.Client, data: seq<byte>)
    requires EInv(e, []) && e.role != RemoteServer && e.udp.session + 1 < Pow256(WORD)
    requires ADDRESS_SIZE <= |data| <= READ_BUFFER_SIZE
    ensures SslOk(e) && EInv(SendUdpData(e, src, data), [])
  {
    var u := U.FromClient(e.udp, src);
    FromClientOk(e.udp, src);
    UdpIrrelevant(e, u, []);
    var f := Frame(U.SessionOf(u, src), DataUdp, data);
    PendIrrelevant(e.(udp := u), f);
    AddRequestKeeps(e.(udp := u), f);
  }

  lemma ClearOk(u: U.Udp)
    requires UdpOk(u)
    ensures UdpOk(U.Clear(u)) && U.Clear(u).session == u.session && U.Clear(u).owners == u.owners
  {
  }

  lemma ExpireOk(u: U.Udp, order: seq<U.Client>)
    requires UdpOk(u) && forall i | 0 <= i < |order| :: order[i] in u.srcs
    ensures UdpOk(U.Expire(u, order)) && U.Expire(u, order).session == u.session && U.Expire(u, order).owners == u.owners
  {
  }

  lemma TickSslKeeps(e: Endpoint)
    requires EInv(e, [])
    ensures SslOk(e) && EInv(TickSsl(e), [])
  {
    EInvOks(e, []);
    if e.ssl.Some? {
      TimeoutSslOk(e, e.ssl.value);
      SetSslKeeps(e, e.ssl.value, TimeoutDown(e.ssls[e.ssl.value]));
    }
  }

  lemma TimeoutSslOk(e: Endpoint, k: nat)
    requires SslInv(e) && k < |e.ssls|
    ensures SslRelayOk(TimeoutDown(e.ssls[k])) && TimeoutDown(e.ssls[k]).offered == e.ssls[k].offered
  {
    var r := e.ssls[k];
    assert SslRelayOk(r);
    TimeoutKeepsInv(r);
    if r.timeout == 1 {
    } else {
    }
  }

  lemma TickKeeps(e: Endpoint, order: seq<U.Client>)
    requires EInv(e, []) && CanTick(e, order)
    ensures EInv(TimerTurn(e, order), [])
  {
    hide EInv, TimerBody;
    TickBodyKeeps(e, order);
    TimingIrrelevant(TimerBody(e, order), TimerBody(e, order).running, []);
  }

  lemma TickBodyKeeps(e: Endpoint, order: seq<U.Client>)
    requires EInv(e, []) && CanTick(e, order)
    ensures EInv(TimerBody(e, order), [])
  {
    TickSslKeeps(e);
    var e1 := TickSsl(e);
    if SslIdle(e) && e.role == RemoteServer {
      StopManagerKeeps(e1, []);
    } else {
      var u := if SslIdle(e) then U.Clear(e.udp) else e.udp;
      ClearOk(e.udp);
      assert u.srcs == TickSources(e);
      ExpireOk(u, order);
      UdpIrrelevant(e1, U.Expire(u, order), []);
      TickRelaysKeeps(e1.(udp := U.Expire(u, order)), []);
    }
  }

  lemma SenderOk(u: U.Udp, w: nat, act: U.SenderStep)
    requires UdpOk(u) && w < |u.senders| && U.SenderCan(u.senders[w], act)
    ensures UdpOk(SenderMoves(u, w, act))
  {
  }

  /** Every step of an endpoint keeps its invariant. */
  lemma EndpointStepKeeps(e: Endpoint, st: Endpoints.Step)
    requires EInv(e, []) && Endpoints.Enabled(e, st) && Fits(e, st) && SslClean(e, st)
    requires e.role == RemoteServer ==> e.ssl.Some?
    requires st == AcceptTcp ==> Datas(e.handled, e.udp.session) == []
    ensures EInv(Endpoints.Do(e, st), [])
  {
    match st
    case ObjStep(i, q) => ObjStepKeeps(e, i, q);
    case EmitStart(i, data) => EmitStartKeeps(e, i, data);
    case ReadSome(i, data) => ReadSomeKeeps(e, i, data);
    case ReadFails(i) => ReadFailsKeeps(e, i);
    case StartFails(i) => StartFailsKeeps(e, i);
    case ReplyEnds(i, ok) => ReplyEndsKeeps(e, i, ok);
    case RecvFrom(i, peer, stale, data) => RecvFromKeeps(e, i, peer, stale, data);
    case Request(i) => RequestKeeps(e, i);
    case SslStep(k, q) => SslStepKeeps(e, k, q);
    case AcceptTcp => AcceptTcpKeeps(e);
    case AcceptUdp(src, data) => AcceptUdpKeeps(e, src, data);
    case TimerTick(order) => TickKeeps(e, order);
    case SenderStep(w, act) =>
      SenderOk(e.udp, w, act);
      UdpIrrelevant(e, SenderMoves(e.udp, w, act), []);
  }
}
