/** What holds at one end in every run, whichever numbers sessions share and
    whatever was dropped: the table, the stops, the frames' form. */
module Shape {
  import opened Bytes
  import opened RelayData
  import opened RelayQueue
  import opened SslReader
  import opened Endpoints
  import opened EndpointInv
  import opened EndpointSteps
  import A = Addresses
  import U = UdpTables

  /** Frames an end posts: well formed, and no START_TCP from a remote one. */
  predicate Postable(f: Frame, remote: bool) {
    WellFormed(f) && (remote ==> f.cmd != StartTcp)
  }

  predicate Sendables(bs: seq<Buf>, remote: bool) {
    Sendable(bs) && forall i | 0 <= i < |bs| :: Postable(bs[i].frame, remote)
  }

  /** A connection: all its frames can be posted by this end. */
  ghost predicate SslShape(r: Relay, remote: bool) {
    Core(r) && Sendables(r.offered, remote) && Sendables(r.accepted, remote) && Sendables(Sends(r.inbox), remote)
  }

  /** A raw relay: stopped if it is not in the table, or if its time is up. */
  ghost predicate RawShape(r: Relay, inTable: bool) {
    Core(r) && r.kind != Ssl && ((inTable && r.timeout > 0) || r.stopCalled)
  }

  ghost predicate ObjShape(o: Obj, inTable: bool, remote: bool) {
    && RawShape(o.relay, inTable) && o.session < Pow256(WORD)
    && forall j | 0 <= j < |o.outbox| :: Postable(o.outbox[j], remote)
  }

  predicate Remote(e: Endpoint) {
    e.role == RemoteServer
  }

  ghost predicate Shaped(e: Endpoint) {
    && !e.faulted && UdpOk(e.udp) && TableInv(e) && SslOk(e)
    && (forall i | 0 <= i < |e.objs| :: ObjShape(e.objs[i], InTable(e, i), Remote(e)))
    && (forall k | 0 <= k < |e.ssls| :: SslShape(e.ssls[k], Remote(e)))
    && (forall j | 0 <= j < |e.handled| :: WellFormed(e.handled[j]))
  }

  lemma ShapedOks(e: Endpoint)
    requires Shaped(e)
    ensures TableOk(e) && SslOk(e) && e.udp.senders != []
  {
  }

  // ------------------------------------------------------------ one part moves

  lemma SetObjShape(e: Endpoint, i: nat, o: Obj)
    requires Shaped(e) && i < |e.objs| && o.session == e.objs[i].session && ObjShape(o, InTable(e, i), Remote(e))
    ensures Shaped(SetObj(e, i, o))
  {
    hide ObjShape, SslShape;
    var e' := SetObj(e, i, o);
    forall j | 0 <= j < |e'.objs|
      ensures ObjShape(e'.objs[j], InTable(e', j), Remote(e'))
    {
      assert InTable(e', j) <==> InTable(e, j);
    }
  }

  lemma SetSslShape(e: Endpoint, k: nat, r: Relay)
    requires Shaped(e) && k < |e.ssls| && SslShape(r, Remote(e))
    ensures Shaped(SetSsl(e, k, r))
  {
    hide ObjShape, SslShape;
    var e' := SetSsl(e, k, r);
    forall j | 0 <= j < |e'.objs|
      ensures ObjShape(e'.objs[j], InTable(e', j), Remote(e'))
    {
      assert InTable(e', j) <==> InTable(e, j);
    }
  }

  /** Fields that the shape of the relays does not depend on. */
  lemma OthersShape(e: Endpoint, e': Endpoint)
    requires Shaped(e) && e' == e.(running := e'.running, timing := e'.timing, udp := e'.udp, handled := e'.handled)
    requires UdpOk(e'.udp) && forall j | 0 <= j < |e'.handled| :: WellFormed(e'.handled[j])
    ensures Shaped(e')
  {
    hide ObjShape, SslShape;
    forall j | 0 <= j < |e'.objs|
      ensures ObjShape(e'.objs[j], InTable(e', j), Remote(e'))
    {
      assert InTable(e', j) <==> InTable(e, j);
    }
  }

  /** Relays change, the table shrinks. */
  lemma RelaysShape(e: Endpoint, e': Endpoint)
    requires Shaped(e) && e' == e.(objs := e'.objs, relays := e'.relays, running := e'.running) && |e'.objs| == |e.objs|
    requires forall s | s in e'.relays :: s in e.relays && e'.relays[s] == e.relays[s]
    requires forall i | 0 <= i < |e.objs| ::
               e'.objs[i] == e.objs[i].(relay := e'.objs[i].relay) && RawShape(e'.objs[i].relay, InTable(e', i))
    ensures Shaped(e')
  {
    hide SslShape, RawShape;
    TableShrinks(e, e');
  }

  /** A new relay takes its session's entry; one that had it has been stopped. */
  lemma AddObjShape(e: Endpoint, o: Obj)
    requires Shaped(e) && ObjShape(o, true, Remote(e))
    requires o.session in e.relays ==> e.objs[e.relays[o.session].value].relay.stopCalled
    ensures Shaped(WithObj(e, o))
  {
    hide SslShape, ObjShape;
    var e' := WithObj(e, o);
    var n := |e.objs|;
    forall j | 0 <= j < |e'.objs|
      ensures ObjShape(e'.objs[j], InTable(e', j), Remote(e'))
    {
      if j < n {
        assert e'.objs[j] == e.objs[j];
        assert InTable(e', j) <==> InTable(e, j) && e.objs[j].session != o.session;
        LosesEntry(e.objs[j], InTable(e, j), InTable(e', j), Remote(e));
      } else {
        assert InTable(e', j);
      }
    }
    AddObjEntries(e, o);
  }

  lemma LosesEntry(o: Obj, inTable: bool, inTable': bool, remote: bool)
    requires ObjShape(o, inTable, remote) && (inTable != inTable' ==> o.relay.stopCalled)
    ensures ObjShape(o, inTable', remote)
  {
  }

  lemma AddObjEntries(e: Endpoint, o: Obj)
    requires TableInv(e)
    ensures TableInv(WithObj(e, o))
  {
  }

  // --------------------------------------------------------------- relays

  lemma {:induction false} SendablesSplit(a: seq<Buf>, b: seq<Buf>, remote: bool)
    ensures Sendables(a + b, remote) <==> Sendables(a, remote) && Sendables(b, remote)
  {
    if Sendables(a + b, remote) {
      forall i | 0 <= i < |a|
        ensures a[i] == (a + b)[i]
      {
      }
      forall i | 0 <= i < |b|
        ensures b[i] == (a + b)[|a| + i]
      {
      }
    }
  }

  lemma PostSslShape(r: Relay, f: Frame, remote: bool)
    requires SslShape(r, remote) && Postable(f, remote)
    ensures SslShape(Post(r, Send(Load(Ssl, f))), remote)
  {
    hide Core;
    var b := Load(Ssl, f);
    PostKeepsCore(r, Send(b));
    SendsSplit(r.inbox, [Send(b)]);
    SendsOne(Send(b));
    SendablesSplit(r.offered, [b], remote);
    SendablesSplit(Sends(r.inbox), [b], remote);
  }

  lemma RefuseShape(r: Relay, f: Frame, remote: bool)
    requires SslShape(r, remote) && Postable(f, remote) && r.state == Stop
    ensures SslShape(Refuse(r, Load(Ssl, f)), remote)
  {
    hide Core;
    RefuseKeepsCore(r, Load(Ssl, f));
    SendablesSplit(r.offered, [Load(Ssl, f)], remote);
  }

  lemma HaltSslShape(r: Relay, remote: bool)
    requires SslShape(r, remote)
    ensures SslShape(TimeoutDown(r), remote)
  {
    hide Core;
    TimeoutKeepsCore(r);
    SendsSplit(r.inbox, [Halt]);
    SendsOne(Halt);
    assert Sends(r.inbox) + [] == Sends(r.inbox);
    if r.timeout == 1 {} else {}
  }

  lemma SslStepShape(r: Relay, q: RelayQueue.Step, remote: bool)
    requires SslShape(r, remote) && RelayQueue.Enabled(r, q)
    ensures SslShape(Apply(r, q), remote)
  {
    hide Core;
    StepKeepsCore(r, q);
    StepFrame(r, q);
    AcceptsWhatCame(r, q);
    if q == Receive {
      assert r.inbox == [r.inbox[0]] + r.inbox[1..];
      SendsSplit([r.inbox[0]], r.inbox[1..]);
      SendsOne(r.inbox[0]);
      SendablesSplit(Sends([r.inbox[0]]), Sends(r.inbox[1..]), remote);
      SendablesSplit(r.accepted, Sends([r.inbox[0]]), remote);
    }
  }

  lemma RawStepShape(r: Relay, inTable: bool, q: RelayQueue.Step)
    requires RawShape(r, inTable) && RelayQueue.Enabled(r, q)
    ensures RawShape(Apply(r, q), inTable)
  {
    hide Core;
    StepKeepsCore(r, q);
    StepFrame(r, q);
  }

  lemma PostRawShape(r: Relay, inTable: bool, m: RelayQueue.Message)
    requires RawShape(r, inTable)
    ensures RawShape(Post(r, m), inTable) && (m == Halt ==> RawShape(Post(r, m), false))
  {
    hide Core;
    PostKeepsCore(r, m);
  }

  /** A relay whose counter runs out is stopped. */
  lemma TickRawShape(r: Relay)
    requires RawShape(r, true)
    ensures RawShape(TimeoutDown(r), TimeoutDown(r).timeout != 0)
  {
    hide Core;
    TimeoutKeepsCore(r);
    if r.timeout == 1 {} else {}
  }

  lemma FreshShape(kind: Kind, dials: bool)
    ensures kind != Ssl ==> RawShape(Fresh(kind, dials), true)
    ensures SslShape(Fresh(Ssl, dials), true) && SslShape(Fresh(Ssl, dials), false)
  {
    InitFresh(kind, dials);
    InitFresh(Ssl, dials);
  }

  // --------------------------------------------------------------- add_request

  lemma StopManagerShape(e: Endpoint)
    requires Shaped(e)
    ensures Shaped(StopManager(e))
  {
    var e' := StopManager(e);
    forall i | 0 <= i < |e.objs|
      ensures e'.objs[i] == e.objs[i].(relay := e'.objs[i].relay) && RawShape(e'.objs[i].relay, InTable(e', i))
    {
      assert ObjShape(e.objs[i], InTable(e, i), Remote(e));
      PostRawShape(e.objs[i].relay, InTable(e, i), Halt);
    }
    RelaysShape(e, e');
  }

  lemma OpenSslShape(e: Endpoint)
    requires Shaped(e) && !Remote(e)
    ensures Shaped(OpenSsl(e))
  {
    hide ObjShape, SslShape;
    var e' := OpenSsl(e);
    FreshShape(Ssl, true);
    forall j | 0 <= j < |e'.objs|
      ensures ObjShape(e'.objs[j], InTable(e', j), Remote(e'))
    {
      assert InTable(e', j) <==> InTable(e, j);
    }
  }

  lemma AddRequestShape(e: Endpoint, f: Frame)
    requires Shaped(e) && Postable(f, Remote(e))
    ensures SslOk(e) && Shaped(AddRequest(e, f))
  {
    hide ObjShape, SslShape, Shaped;
    ShapedOks(e);
    if !SslDown(e) {
      PostShape(e, f);
    } else if e.role == RemoteServer {
      RefusalShape(e, f);
      StopManagerShape(RefuseSsl(e, f));
    } else {
      OpenSslShape(e);
      ShapedOks(OpenSsl(e));
      PostShape(OpenSsl(e), f);
    }
  }

  lemma PostShape(e: Endpoint, f: Frame)
    requires Shaped(e) && Postable(f, Remote(e)) && SslOk(e) && e.ssl.Some?
    ensures Shaped(PostSsl(e, e.ssl.value, f))
  {
    hide ObjShape, SslShape;
    var k := e.ssl.value;
    PostSslShape(e.ssls[k], f, Remote(e));
    SetSslShape(e, k, Post(e.ssls[k], Send(Load(Ssl, f))));
  }

  lemma RefusalShape(e: Endpoint, f: Frame)
    requires Shaped(e) && Postable(f, Remote(e)) && SslOk(e) && SslDown(e)
    ensures Shaped(RefuseSsl(e, f))
  {
    hide ObjShape, SslShape;
    if e.ssl.Some? {
      var k := e.ssl.value;
      RefuseShape(e.ssls[k], f, Remote(e));
      SetSslShape(e, k, Refuse(e.ssls[k], Load(Ssl, f)));
    }
  }

  // -------------------------------------------------------------- add_response

  lemma PostObjShape(e: Endpoint, i: nat, m: RelayQueue.Message)
    requires Shaped(e) && i < |e.objs|
    ensures Shaped(PostObj(e, i, m)) && (m == Halt ==> PostObj(e, i, m).objs[i].relay.stopCalled)
  {
    hide SslShape;
    assert ObjShape(e.objs[i], InTable(e, i), Remote(e));
    PostRawShape(e.objs[i].relay, InTable(e, i), m);
    SetObjShape(e, i, e.objs[i].(relay := Post(e.objs[i].relay, m)));
  }

  /** An entry whose relay has been stopped goes. */
  lemma DropShape(e: Endpoint, s: nat)
    requires Shaped(e) && s in e.relays && e.objs[e.relays[s].value].relay.stopCalled
    ensures Shaped(e.(relays := e.relays - {s}))
  {
    hide SslShape;
    var e' := e.(relays := e.relays - {s});
    forall i | 0 <= i < |e.objs|
      ensures RawShape(e'.objs[i].relay, InTable(e', i))
    {
      assert ObjShape(e.objs[i], InTable(e, i), Remote(e));
      assert InTable(e, i) && !InTable(e', i) ==> e.objs[i].session == s;
    }
    RelaysShape(e, e');
  }

  lemma StoppedIsCalled(e: Endpoint, i: nat)
    requires Shaped(e) && i < |e.objs| && e.objs[i].relay.state == Stop
    ensures e.objs[i].relay.stopCalled
  {
    assert ObjShape(e.objs[i], InTable(e, i), Remote(e));
  }

  lemma EntryInRange(e: Endpoint, s: nat)
    requires Shaped(e) && s in e.relays
    ensures e.relays[s].Some? && e.relays[s].value < |e.objs| && e.objs[e.relays[s].value].session == s
    ensures s < Pow256(WORD)
  {
    assert ObjShape(e.objs[e.relays[s].value], InTable(e, e.relays[s].value), Remote(e));
  }

  lemma StopFrameShape(s: nat, remote: bool)
    requires s < Pow256(WORD)
    ensures Postable(StopFrame(s), remote)
  {
  }

  lemma DataShape(e: Endpoint, f: Frame)
    requires Shaped(e)
    ensures TableOk(e) && SslOk(e) && Shaped(OnDataTcp(e, f))
  {
    hide ObjShape, SslShape, Shaped;
    ShapedOks(e);
    var s := f.session;
    if s in e.relays {
      EntryInRange(e, s);
      var v := e.relays[s].value;
      if e.objs[v].relay.state == Stop {
        StoppedIsCalled(e, v);
        DropShape(e, s);
        StopFrameShape(s, Remote(e));
        AddRequestShape(e.(relays := e.relays - {s}), StopFrame(s));
      } else {
        PostObjShape(e, v, Send(Load(e.objs[v].relay.kind, f)));
      }
    }
  }

  lemma StopShape(e: Endpoint, f: Frame)
    requires Shaped(e)
    ensures TableOk(e) && Shaped(OnStopTcp(e, f))
  {
    hide ObjShape, SslShape, Shaped;
    ShapedOks(e);
    var s := f.session;
    if s in e.relays {
      EntryInRange(e, s);
      PostObjShape(e, e.relays[s].value, Halt);
      DropShape(PostObj(e, e.relays[s].value, Halt), s);
    }
  }

  lemma NewObjShape(o: Obj, remote: bool)
    requires o.relay == Fresh(o.relay.kind, o.relay.dials) && o.relay.kind != Ssl
    requires o.outbox == [] && o.session < Pow256(WORD)
    ensures ObjShape(o, true, remote)
  {
    FreshShape(o.relay.kind, o.relay.dials);
  }

  /** START_TCP, also for a number that is in use: the relay that had the entry
      is stopped before it loses it. */
  lemma StartShape(e: Endpoint, f: Frame)
    requires Shaped(e) && WellFormed(f) && f.cmd == StartTcp
    ensures TableOk(e) && Shaped(StartRemoteTcp(e, f))
  {
    hide SslShape, Shaped, ObjShape;
    ShapedOks(e);
    var s := f.session;
    var o := Obj(s, Fresh(RawTcp, Remote(e)), NotStarted, false, [], Some(DestOf(f.data).dest), [], []);
    NewObjShape(o, Remote(e));
    if s in e.relays {
      EntryInRange(e, s);
      var v := e.relays[s].value;
      PostObjShape(e, v, Halt);
      AddObjShape(PostObj(e, v, Halt), o);
      assert StartRemoteTcp(e, f) == WithObj(PostObj(e, v, Halt), o);
    } else {
      AddObjShape(e, o);
      assert StartRemoteTcp(e, f) == WithObj(e, o);
    }
  }

  lemma RemoteUdpShape(e: Endpoint, f: Frame)
    requires Shaped(e) && WellFormed(f)
    ensures TableOk(e) && Shaped(RemoteSendUdp(e, f))
  {
    hide SslShape, Shaped, ObjShape;
    ShapedOks(e);
    var s := f.session;
    if s in e.relays {
      EntryInRange(e, s);
    }
    if s in e.relays && e.objs[e.relays[s].value].relay.state != Stop {
      PostObjShape(e, e.relays[s].value, Send(Load(e.objs[e.relays[s].value].relay.kind, f)));
    } else {
      if s in e.relays {
        StoppedIsCalled(e, e.relays[s].value);
      }
      var o := Obj(s, Fresh(RawUdp, false), Reading, false, [], None, [], []);
      NewObjShape(o, Remote(e));
      AddObjShape(e, o);
      assert AddRawUdp(e, s) == WithObj(e, o);
      PostObjShape(AddRawUdp(e, s), |e.objs|, Send(Load(RawUdp, f)));
    }
  }

  lemma UdpShape(e: Endpoint, f: Frame)
    requires Shaped(e) && WellFormed(f)
    ensures TableOk(e) && Shaped(OnDataUdp(e, f))
  {
    hide ObjShape, SslShape;
    ShapedOks(e);
    match e.role
    case LocalServer =>
    case LocalTransparent =>
      ToClientOk(e.udp, f);
      OthersShape(e, e.(udp := U.ToClient(e.udp, f)));
    case RemoteServer => RemoteUdpShape(e, f);
  }

  /** Any well-formed frame may come, at any time, under any number. */
  lemma AddResponseShape(e: Endpoint, f: Frame)
    requires Shaped(e) && WellFormed(f)
    ensures CanHandle(e, f) && Shaped(AddResponse(e, f))
  {
    hide ObjShape, SslShape;
    ShapedOks(e);
    var h := e.(handled := e.handled + [f]);
    OthersShape(e, h);
    match f.cmd
    case DataTcp => DataShape(h, f);
    case DataUdp => UdpShape(h, f);
    case StartTcp => StartShape(h, f);
    case StopTcp => StopShape(h, f);
    case StopUdp =>
    case Unknown(_) =>
  }

  // -------------------------------------------------------------- its own steps

  /** One of its relays posts f, or nothing, and moves. */
  lemma ObjMovesShape(e: Endpoint, i: nat, o: Obj, fs: seq<Frame>)
    requires Shaped(e) && i < |e.objs| && o.session == e.objs[i].session && o.outbox == e.objs[i].outbox + fs
    requires RawShape(o.relay, InTable(e, i)) && forall j | 0 <= j < |fs| :: Postable(fs[j], Remote(e))
    ensures Shaped(SetObj(e, i, o))
  {
    hide SslShape, RawShape;
    assert ObjShape(e.objs[i], InTable(e, i), Remote(e));
    SetObjShape(e, i, o);
  }

  lemma ObjIsShaped(e: Endpoint, i: nat)
    requires Shaped(e) && i < |e.objs|
    ensures RawShape(e.objs[i].relay, InTable(e, i)) && e.objs[i].session < Pow256(WORD)
    ensures e.objs[i].outbox + [] == e.objs[i].outbox
    ensures forall j | 0 <= j < |e.objs[i].outbox| :: Postable(e.objs[i].outbox[j], Remote(e))
  {
    assert ObjShape(e.objs[i], InTable(e, i), Remote(e));
  }

  lemma ResetShape(r: Relay, inTable: bool)
    requires RawShape(r, inTable)
    ensures RawShape(ResetTimeout(r), inTable)
  {
    CountersIrrelevantCore(r, TIMEOUT);
  }

  lemma ObjStepsShape(e: Endpoint, st: Endpoints.Step)
    requires Shaped(e) && Endpoints.Enabled(e, st)
    requires st.ObjStep? || st.ReadFails? || st.StartFails? || st.ReplyEnds?
    ensures Shaped(Endpoints.Do(e, st))
  {
    hide Shaped, RawShape;
    var i := st.i;
    var o := e.objs[i];
    ObjIsShaped(e, i);
    StopFrameShape(o.session, Remote(e));
    match st
    case ObjStep(_, q) =>
      RawStepShape(o.relay, InTable(e, i), q);
      ObjMovesShape(e, i, ObjAfter(o, q, Socks(e, o)), []);
    case ReadFails(_) =>
      RawStepShape(o.relay, InTable(e, i), CallStop);
      ObjMovesShape(e, i, ReadFailed(o), if Tcp(o) then [StopFrame(o.session)] else []);
    case StartFails(_) =>
      RawStepShape(o.relay, InTable(e, i), StartFail);
      ObjMovesShape(e, i, StartFailed(o), [StopFrame(o.session)]);
    case ReplyEnds(_, ok) =>
      RawStepShape(o.relay, InTable(e, i), CallStop);
      ObjMovesShape(e, i, ReplyEnded(o, ok), if ok then [] else [StopFrame(o.session)]);
  }

  lemma ObjInputShape(e: Endpoint, st: Endpoints.Step)
    requires Shaped(e) && Endpoints.Enabled(e, st) && (st.EmitStart? || st.ReadSome? || st.RecvFrom?)
    ensures Shaped(Endpoints.Do(e, st))
  {
    hide Shaped, RawShape;
    var i := st.i;
    var o := e.objs[i];
    ObjIsShaped(e, i);
    match st
    case EmitStart(_, data) =>
      ObjMovesShape(e, i, StartEmitted(o, data), [Frame(o.session, StartTcp, data)]);
    case ReadSome(_, data) =>
      ResetShape(o.relay, InTable(e, i));
      ObjMovesShape(e, i, HasRead(o, data), [Frame(o.session, DataTcp, data)]);
    case RecvFrom(_, peer, stale, data) =>
      DatagramRoundTrip(o.session, peer, data, stale);
      ObjMovesShape(e, i, HasReceived(o, peer, stale, data), [DatagramFrame(o.session, peer, data, stale)]);
  }

  lemma RequestShape(e: Endpoint, i: nat)
    requires Shaped(e) && i < |e.objs| && e.objs[i].outbox != [] && SslOk(e)
    ensures Shaped(AddRequest(TakeRequest(e, i), e.objs[i].outbox[0]))
  {
    hide SslShape, RawShape;
    var o := e.objs[i].(outbox := e.objs[i].outbox[1..]);
    assert ObjShape(e.objs[i], InTable(e, i), Remote(e));
    SetObjShape(e, i, o);
    AddRequestShape(TakeRequest(e, i), e.objs[i].outbox[0]);
  }

  lemma AcceptTcpShape(e: Endpoint)
    requires Shaped(e) && e.udp.session < Pow256(WORD)
    ensures Shaped(AddLocalTcp(e))
  {
    hide SslShape, RawShape;
    var s := e.udp.session;
    var e1 := e.(udp := U.NextTcp(e.udp));
    OthersShape(e, e1);
    if s !in e.relays {
      var o := Obj(s, Fresh(RawTcp, false), NotStarted, false, [], None, [], []);
      FreshShape(RawTcp, false);
      AddObjShape(e1, o);
      assert WithObj(e1, o) == AddLocalTcp(e);
    }
  }

  lemma AcceptUdpShape(e: Endpoint, src: U.Client, data: seq<byte>)
    requires Shaped(e) && e.udp.session + 1 < Pow256(WORD) && ADDRESS_SIZE <= |data| <= READ_BUFFER_SIZE
    ensures SslOk(e) && e.udp.senders != [] && Shaped(SendUdpData(e, src, data))
  {
    hide ObjShape, SslShape;
    var u := U.FromClient(e.udp, src);
    FromClientOk(e.udp, src);
    OthersShape(e, e.(udp := u));
    AddRequestShape(e.(udp := u), Frame(U.SessionOf(u, src), DataUdp, data));
  }

  lemma TickRelaysShape(e: Endpoint)
    requires Shaped(e)
    ensures TableOk(e) && Shaped(TickRelays(e))
  {
    hide SslShape, RawShape;
    ShapedOks(e);
    var e' := TickRelays(e);
    forall i | 0 <= i < |e.objs|
      ensures e'.objs[i] == e.objs[i].(relay := e'.objs[i].relay) && RawShape(e'.objs[i].relay, InTable(e', i))
    {
      assert ObjShape(e.objs[i], InTable(e, i), Remote(e));
      if InTable(e, i) {
        TickRawShape(e.objs[i].relay);
        assert InTable(e', i) <==> TimeoutDown(e.objs[i].relay).timeout != 0;
      }
    }
    RelaysShape(e, e');
  }

  lemma TickSslShape(e: Endpoint)
    requires Shaped(e)
    ensures SslOk(e) && Shaped(TickSsl(e))
  {
    hide ObjShape, SslShape;
    ShapedOks(e);
    if e.ssl.Some? {
      HaltSslShape(e.ssls[e.ssl.value], Remote(e));
      SetSslShape(e, e.ssl.value, TimeoutDown(e.ssls[e.ssl.value]));
    }
  }

  lemma TickShape(e: Endpoint, order: seq<U.Client>)
    requires Shaped(e) && CanTick(e, order)
    ensures Shaped(TimerTurn(e, order))
  {
    hide TimerBody;
    TickBodyShape(e, order);
    var t := TimerBody(e, order);
    OthersShape(t, t.(timing := t.running));
  }

  lemma UdpTickOk(u: U.Udp, idle: bool, order: seq<U.Client>)
    requires UdpOk(u)
    ensures UdpOk(U.Clear(u))
    ensures var v := if idle then U.Clear(u) else u;
            (forall i | 0 <= i < |order| :: order[i] in v.srcs) ==> UdpOk(U.Expire(v, order))
  {
  }

  lemma ShapedUdp(e: Endpoint)
    requires Shaped(e)
    ensures UdpOk(e.udp) && forall j | 0 <= j < |e.handled| :: WellFormed(e.handled[j])
  {
  }

  lemma TickBodyShape(e: Endpoint, order: seq<U.Client>)
    requires Shaped(e) && CanTick(e, order)
    ensures Shaped(TimerBody(e, order))
  {
    hide Shaped, U.Expire, UdpOk;
    TickSslShape(e);
    var e1 := TickSsl(e);
    if SslIdle(e) && e.role == RemoteServer {
      StopManagerShape(e1);
    } else {
      var u := if SslIdle(e) then U.Clear(e.udp) else e.udp;
      assert u.srcs == TickSources(e);
      ShapedUdp(e);
      ShapedUdp(e1);
      UdpTickOk(e.udp, SslIdle(e), order);
      OthersShape(e1, e1.(udp := U.Expire(u, order)));
      TickRelaysShape(e1.(udp := U.Expire(u, order)));
    }
  }

  /** Every step of an endpoint keeps its shape; of the numbers it is only asked
      that they fit in 32 bits. */
  lemma StepShape(e: Endpoint, st: Endpoints.Step)
    requires Shaped(e) && Endpoints.Enabled(e, st) && Fits(e, st)
    ensures Shaped(Endpoints.Do(e, st))
  {
    match st
    case Request(i) => RequestShape(e, i);
    case SslStep(k, q) =>
      SslStepShape(e.ssls[k], q, Remote(e));
      SetSslShape(e, k, Apply(e.ssls[k], q));
    case AcceptTcp => AcceptTcpShape(e);
    case AcceptUdp(src, data) => AcceptUdpShape(e, src, data);
    case TimerTick(order) => TickShape(e, order);
    case SenderStep(w, act) => OthersShape(e, e.(udp := SenderMoves(e.udp, w, act)));
    case EmitStart(_, _) => ObjInputShape(e, st);
    case ReadSome(_, _) => ObjInputShape(e, st);
    case RecvFrom(_, _, _, _) => ObjInputShape(e, st);
    case _ => ObjStepsShape(e, st);
  }
}
