/** How a session ends: the STOP_TCP that a relay owes the other end, from the
    relay's strand to the connection, and what it does where it arrives. */
module SessionEnd {
  import opened Bytes
  import opened RelayData
  import opened RelayQueue
  import opened SslReader
  import opened Streams
  import opened Endpoints
  import opened EndpointInv
  import U = UdpTables

  /** Some of the frames of b, in their order. */
  predicate Sub(a: seq<Frame>, b: seq<Frame>)
    decreases |b|
  {
    a == [] || (b != [] && (Sub(a, b[..|b| - 1]) || (a[|a| - 1] == b[|b| - 1] && Sub(a[..|a| - 1], b[..|b| - 1]))))
  }

  lemma SubPushed(a: seq<Frame>, b: seq<Frame>, f: Frame)
    requires Sub(a, b)
    ensures Sub(a, b + [f]) && Sub(a + [f], b + [f])
  {
    assert (b + [f])[..|b|] == b && (a + [f])[..|a|] == a;
  }

  lemma {:induction false} SubGrows(a: seq<Frame>, b: seq<Frame>, c: seq<Frame>)
    requires Sub(a, b) && b <= c
    ensures Sub(a, c)
    decreases |c|
  {
    if |b| == |c| {
      assert b == c;
    } else {
      SubGrows(a, b, c[..|c| - 1]);
    }
  }

  // ------------------------------------------------- what a relay has posted

  /** A STOP_TCP, and no data behind it. */
  ghost predicate EndsWithStop(fs: seq<Frame>, s: nat) {
    exists j | 0 <= j < |fs| :: fs[j] == Frame(s, StopTcp, []) && forall k | j < k < |fs| :: fs[k].cmd != DataTcp
  }

  /** All frames o has posted: its bytes in order, START_TCP in front if at all, a
      STOP_TCP only once it was told to stop, and at the end of its read loop one
      behind all data. */
  ghost predicate PostedOk(o: Obj, fs: seq<Frame>) {
    && (forall j | 0 <= j < |fs| :: fs[j].session == o.session && (fs[j].cmd == StartTcp ==> j == 0))
    && (o.loop == NotStarted ==> fs == [] && !o.replying)
    && Payload(Datas(fs, o.session)) == o.input && Stream(fs, o.session) == o.emitted
    && (forall j | 0 <= j < |fs| :: fs[j].cmd == StopTcp ==> fs[j].data == [] && o.relay.stopCalled)
    && (Tcp(o) && o.loop == Over ==> EndsWithStop(fs, o.session))
  }

  /** What o has posted is what it still has in its outbox and, in front of
      that, frames that were offered to the connections in this order. */
  ghost predicate Sent(o: Obj, gone: seq<Frame>) {
    exists taken: seq<Frame> :: Sub(taken, gone) && PostedOk(o, taken + o.outbox)
  }

  predicate SslLast(e: Endpoint) {
    e.ssl == (if e.ssls == [] then None else Some(|e.ssls| - 1)) && (e.role == RemoteServer ==> e.ssls != [])
  }

  ghost predicate AllSent(e: Endpoint) {
    SslLast(e) && forall i | 0 <= i < |e.objs| :: Sent(e.objs[i], Outgoing(e.ssls))
  }

  // --------------------------------------------------- how one move changes it

  predicate Still(o: Obj, o': Obj) {
    && o'.outbox == o.outbox && o'.input == o.input && o'.emitted == o.emitted
    && (Tcp(o) ==> (o'.loop == Over <==> o.loop == Over)) && (o'.loop == NotStarted ==> o.loop == NotStarted)
  }

  predicate Taken(o: Obj, o': Obj) {
    && o.outbox != [] && o'.outbox == o.outbox[1..] && o'.input == o.input && o'.emitted == o.emitted
    && o'.loop == o.loop
  }

  predicate Posts(o: Obj, o': Obj, f: Frame) {
    && o'.outbox == o.outbox + [f] && f.session == o.session
    && o'.input == (if f.cmd == DataTcp then o.input + f.data else o.input)
    && o'.emitted == (if f.cmd in {StartTcp, DataTcp} then o.emitted + [f] else o.emitted)
    && (f.cmd == StartTcp ==> o.loop == NotStarted)
    && (o'.loop == NotStarted ==> o.loop == NotStarted && o.replying)
    && (f.cmd == DataTcp ==> o'.loop != Over)
    && (f.cmd == StopTcp ==> f.data == [] && o'.relay.stopCalled)
    && (Tcp(o) && o'.loop == Over ==> o.loop == Over || f.cmd == StopTcp)
  }

  predicate Flows(o: Obj, o': Obj, took: bool) {
    && o'.session == o.session && o'.relay.kind == o.relay.kind
    && (o.relay.stopCalled ==> o'.relay.stopCalled) && (o'.replying ==> o.replying || o'.loop != NotStarted)
    && if took then Taken(o, o')
       else Still(o, o') || (o'.outbox != [] && Posts(o, o', o'.outbox[|o'.outbox| - 1]))
  }

  predicate NewObj(o: Obj) {
    o.outbox == [] && o.input == [] && o.emitted == [] && o.loop != Over && !o.replying
  }

  /** `took` is the relay whose request the manager has handled. */
  ghost predicate Flow(e: Endpoint, e': Endpoint, took: Option<nat>) {
    && SslLast(e') && |e.objs| <= |e'.objs|
    && (forall j | 0 <= j < |e.objs| :: Flows(e.objs[j], e'.objs[j], took == Some(j)))
    && (forall j | |e.objs| <= j < |e'.objs| ::
          NewObj(e'.objs[j]))
    && Outgoing(e.ssls) <= Outgoing(e'.ssls)
    && (took.Some? ==> took.value < |e.objs| && e.objs[took.value].outbox != []
                       && Outgoing(e'.ssls) == Outgoing(e.ssls) + [e.objs[took.value].outbox[0]])
  }

  lemma PostsBytes(o: Obj, o': Obj, f: Frame, fs: seq<Frame>)
    requires Posts(o, o', f) && PostedOk(o, fs)
    ensures Payload(Datas(fs + [f], o.session)) == o'.input && Stream(fs + [f], o.session) == o'.emitted
  {
    hide EndsWithStop;
    var s := o.session;
    StreamAppend(fs, f, s);
    DatasAppend(fs, f, s);
    PayloadSplit(Datas(fs, s), [f]);
    PayloadOne(f);
  }

  lemma PostsStop(o: Obj, o': Obj, f: Frame, fs: seq<Frame>)
    requires Posts(o, o', f) && o'.relay.kind == o.relay.kind && PostedOk(o, fs) && Tcp(o') && o'.loop == Over
    ensures EndsWithStop(fs + [f], o.session)
  {
    hide Datas, Stream, Payload;
    var s := o.session;
    if f.cmd == StopTcp {
      assert (fs + [f])[|fs|] == Frame(s, StopTcp, []);
    } else {
      var j :| 0 <= j < |fs| && fs[j] == Frame(s, StopTcp, []) && forall k | j < k < |fs| :: fs[k].cmd != DataTcp;
      assert (fs + [f])[j] == Frame(s, StopTcp, []);
    }
  }

  lemma PostsSent(o: Obj, o': Obj, f: Frame, fs: seq<Frame>)
    requires Posts(o, o', f) && o'.session == o.session && o'.relay.kind == o.relay.kind
    requires (o.relay.stopCalled ==> o'.relay.stopCalled) && (o'.replying ==> o.replying || o'.loop != NotStarted)
    requires PostedOk(o, fs)
    ensures PostedOk(o', fs + [f])
  {
    hide Datas, Stream, Payload, EndsWithStop;
    PostsBytes(o, o', f, fs);
    if Tcp(o') && o'.loop == Over {
      PostsStop(o, o', f, fs);
    }
  }

  lemma TakenSent(o: Obj, o': Obj, taken: seq<Frame>)
    requires Flows(o, o', true) && PostedOk(o, taken + o.outbox)
    ensures PostedOk(o', taken + [o.outbox[0]] + o'.outbox)
  {
    assert taken + o.outbox == taken + [o.outbox[0]] + o'.outbox;
  }

  lemma StillSent(o: Obj, o': Obj, taken: seq<Frame>)
    requires Flows(o, o', false) && PostedOk(o, taken + o.outbox)
    ensures PostedOk(o', taken + o'.outbox)
  {
    hide PostedOk, Posts;
    if Still(o, o') {
      SamePosted(o, o', taken + o.outbox);
    } else {
      var f := o'.outbox[|o'.outbox| - 1];
      PostsSent(o, o', f, taken + o.outbox);
      Gathered(o, o', f, taken);
    }
  }

  lemma Gathered(o: Obj, o': Obj, f: Frame, taken: seq<Frame>)
    requires Posts(o, o', f)
    ensures taken + o.outbox + [f] == taken + o'.outbox
  {
  }

  lemma SamePosted(o: Obj, o': Obj, fs: seq<Frame>)
    requires Still(o, o') && Flows(o, o', false) && PostedOk(o, fs)
    ensures PostedOk(o', fs)
  {
  }

  lemma FlowsSent(o: Obj, o': Obj, took: bool, gone: seq<Frame>, gone': seq<Frame>)
    requires Sent(o, gone) && Flows(o, o', took) && gone <= gone'
    requires took ==> gone' == gone + [o.outbox[0]]
    ensures Sent(o', gone')
  {
    hide PostedOk, Sub;
    var taken: seq<Frame> :| Sub(taken, gone) && PostedOk(o, taken + o.outbox);
    if took {
      SubPushed(taken, gone, o.outbox[0]);
      TakenSent(o, o', taken);
    } else {
      SubGrows(taken, gone, gone');
      StillSent(o, o', taken);
    }
  }

  lemma NewSent(o: Obj, gone: seq<Frame>)
    requires NewObj(o)
    ensures Sent(o, gone)
  {
    assert Sub([], gone) && PostedOk(o, [] + o.outbox);
  }

  lemma FlowSent(e: Endpoint, e': Endpoint, took: Option<nat>)
    requires AllSent(e) && Flow(e, e', took)
    ensures AllSent(e')
  {
    hide Sent, Flows;
    forall i | 0 <= i < |e'.objs|
      ensures Sent(e'.objs[i], Outgoing(e'.ssls))
    {
      if i < |e.objs| {
        FlowsSent(e.objs[i], e'.objs[i], took == Some(i), Outgoing(e.ssls), Outgoing(e'.ssls));
      } else {
        NewSent(e'.objs[i], Outgoing(e'.ssls));
      }
    }
  }

  // ----------------------------------------------------------- moves are flows

  /** Nothing of what Flow is about changes but a message to a relay. */
  predicate Calm(e: Endpoint, e': Endpoint) {
    && |e'.objs| == |e.objs|
    && forall j | 0 <= j < |e.objs| ::
         && e'.objs[j] == e.objs[j].(relay := e'.objs[j].relay) && e'.objs[j].relay.kind == e.objs[j].relay.kind
         && (e.objs[j].relay.stopCalled ==> e'.objs[j].relay.stopCalled)
  }

  lemma SetLast(ssls: seq<Relay>, k: nat, r: Relay)
    requires k < |ssls| && r.offered == ssls[k].offered
    ensures Outgoing(ssls[k := r]) == Outgoing(ssls)
  {
    OutgoingSame(ssls[k := r], ssls);
  }

  lemma GivesUpFlows(e: Endpoint, f: Frame)
    requires SslLast(e) && e.ssl.Some? && e.role == RemoteServer
    ensures var e' := StopManager(RefuseSsl(e, f));
            SslLast(e') && Calm(e, e') && Outgoing(e'.ssls) == Outgoing(e.ssls) + [f]
  {
    hide Outgoing, Calm;
    OutgoingAppend(e.ssls, Refuse(e.ssls[e.ssl.value], Load(Ssl, f)), Load(Ssl, f));
    StopManagerCalm(RefuseSsl(e, f));
    CalmSame(e, RefuseSsl(e, f), StopManager(RefuseSsl(e, f)), StopManager(RefuseSsl(e, f)));
  }

  lemma PostFlows(e: Endpoint, f: Frame)
    requires SslLast(e) && e.ssl.Some?
    ensures var e' := PostSsl(e, e.ssl.value, f);
            SslLast(e') && e'.objs == e.objs && Outgoing(e'.ssls) == Outgoing(e.ssls) + [f]
  {
    hide Outgoing;
    OutgoingAppend(e.ssls, Post(e.ssls[e.ssl.value], Send(Load(Ssl, f))), Load(Ssl, f));
  }

  lemma AddRequestFlows(e: Endpoint, f: Frame)
    requires SslLast(e)
    ensures var e' := AddRequest(e, f);
            SslLast(e') && Calm(e, e') && Outgoing(e'.ssls) == Outgoing(e.ssls) + [f]
  {
    hide Outgoing, StopManager, RefuseSsl, PostSsl;
    if !SslDown(e) {
      PostFlows(e, f);
    } else if e.role == RemoteServer {
      GivesUpFlows(e, f);
    } else {
      OutgoingOpen(e.ssls, Fresh(Ssl, true));
      PostFlows(OpenSsl(e), f);
    }
  }

  lemma CalmFlow(e: Endpoint, e': Endpoint)
    requires SslLast(e') && Calm(e, e') && Outgoing(e.ssls) <= Outgoing(e'.ssls)
    ensures Flow(e, e', None)
  {
    forall j | 0 <= j < |e.objs|
      ensures Flows(e.objs[j], e'.objs[j], false)
    {
    }
  }

  lemma TickRelaysCalm(e: Endpoint)
    requires TableOk(e)
    ensures Calm(e, TickRelays(e))
  {
    hide InTable, Survives;
    var e' := TickRelays(e);
    forall j | 0 <= j < |e.objs|
      ensures e'.objs[j] == e.objs[j].(relay := e'.objs[j].relay) && e'.objs[j].relay.kind == e.objs[j].relay.kind
      ensures e.objs[j].relay.stopCalled ==> e'.objs[j].relay.stopCalled
    {
      if InTable(e, j) {} else {}
    }
  }

  lemma StopManagerCalm(e: Endpoint)
    ensures Calm(e, StopManager(e))
  {
    hide InTable;
    var e' := StopManager(e);
    forall j | 0 <= j < |e.objs|
      ensures e'.objs[j] == e.objs[j].(relay := e'.objs[j].relay) && e'.objs[j].relay.kind == e.objs[j].relay.kind
      ensures e.objs[j].relay.stopCalled ==> e'.objs[j].relay.stopCalled
    {
      if InTable(e, j) {} else {}
    }
  }

  lemma TickCalm(e: Endpoint, order: seq<U.Client>)
    requires CanTick(e, order)
    ensures Calm(e, TimerTurn(e, order))
  {
    hide Calm, InTable, Survives;
    var e1 := TickSsl(e);
    if SslIdle(e) && e.role == RemoteServer {
      StopManagerCalm(e1);
      CalmSame(e, e1, StopManager(e1), TimerTurn(e, order));
    } else {
      var u := if SslIdle(e) then U.Clear(e.udp) else e.udp;
      assert u.srcs == TickSources(e);
      var e2 := e1.(udp := U.Expire(u, order));
      TickRelaysCalm(e2);
      CalmSame(e, e2, TickRelays(e2), TimerTurn(e, order));
    }
  }

  lemma CalmSame(e: Endpoint, e1: Endpoint, e2: Endpoint, e': Endpoint)
    requires Calm(e1, e2) && e.objs == e1.objs && e'.objs == e2.objs
    ensures Calm(e, e')
  {
  }

  lemma TickFlows(e: Endpoint, order: seq<U.Client>)
    requires SslLast(e) && CanTick(e, order)
    ensures Flow(e, TimerTurn(e, order), None)
  {
    hide Calm, Outgoing;
    TickCalm(e, order);
    TickSsls(e, order);
    if e.ssl.Some? {
      SetLast(e.ssls, e.ssl.value, TimeoutDown(e.ssls[e.ssl.value]));
    }
    CalmFlow(e, TimerTurn(e, order));
  }

  lemma TickSsls(e: Endpoint, order: seq<U.Client>)
    requires CanTick(e, order)
    ensures var e' := TimerTurn(e, order); e'.ssls == TickSsl(e).ssls && e'.ssl == e.ssl && e'.role == e.role
  {
  }

  lemma RequestFlows(e: Endpoint, i: nat)
    requires SslLast(e) && i < |e.objs| && e.objs[i].outbox != []
    ensures Flow(e, AddRequest(TakeRequest(e, i), e.objs[i].outbox[0]), Some(i))
  {
    var e1 := TakeRequest(e, i);
    var e' := AddRequest(e1, e.objs[i].outbox[0]);
    AddRequestFlows(e1, e.objs[i].outbox[0]);
    assert Calm(e1, e');
    forall j | 0 <= j < |e.objs|
      ensures Flows(e.objs[j], e'.objs[j], Some(i) == Some(j))
    {
      assert j != i ==> e1.objs[j] == e.objs[j];
    }
  }

  lemma OneFlow(e: Endpoint, i: nat, o: Obj)
    requires SslLast(e) && i < |e.objs| && Flows(e.objs[i], o, false)
    ensures Flow(e, SetObj(e, i, o), None)
  {
    var e' := SetObj(e, i, o);
    forall j | 0 <= j < |e.objs|
      ensures Flows(e.objs[j], e'.objs[j], false)
    {
      assert j != i ==> e'.objs[j] == e.objs[j];
    }
  }

  function TookOf(st: Endpoints.Step): Option<nat> {
    if st.Request? then Some(st.i) else None
  }

  lemma ObjFlows(e: Endpoint, st: Endpoints.Step)
    requires Endpoints.Enabled(e, st) && SslLast(e)
    requires st.ObjStep? || st.EmitStart? || st.ReadSome? || st.ReadFails? || st.StartFails? || st.ReplyEnds? || st.RecvFrom?
    ensures Flow(e, Endpoints.Do(e, st), None)
  {
    hide Flow, Outgoing, SslLast;
    match st
    case ObjStep(i, q) =>
      StepFrame(e.objs[i].relay, q);
      OneFlow(e, i, ObjAfter(e.objs[i], q, Socks(e, e.objs[i])));
    case EmitStart(i, data) => OneFlow(e, i, StartEmitted(e.objs[i], data));
    case ReadSome(i, data) => OneFlow(e, i, HasRead(e.objs[i], data));
    case RecvFrom(i, peer, stale, data) => OneFlow(e, i, HasReceived(e.objs[i], peer, stale, data));
    case _ => EndingFlows(e, st);
  }

  lemma EndingFlows(e: Endpoint, st: Endpoints.Step)
    requires Endpoints.Enabled(e, st) && SslLast(e) && (st.ReadFails? || st.StartFails? || st.ReplyEnds?)
    ensures Flow(e, Endpoints.Do(e, st), None)
  {
    hide Flow, Outgoing, SslLast;
    match st
    case ReadFails(i) => OneFlow(e, i, ReadFailed(e.objs[i]));
    case StartFails(i) => OneFlow(e, i, StartFailed(e.objs[i]));
    case ReplyEnds(i, ok) => OneFlow(e, i, ReplyEnded(e.objs[i], ok));
  }

  lemma OwnFlows(e: Endpoint, st: Endpoints.Step)
    requires Endpoints.Enabled(e, st) && SslLast(e)
    ensures Flow(e, Endpoints.Do(e, st), TookOf(st))
  {
    hide Flow, Outgoing, AddRequest;
    var e' := Endpoints.Do(e, st);
    match st
    case Request(i) => RequestFlows(e, i);
    case SslStep(k, q) =>
      StepFrame(e.ssls[k], q);
      SetLast(e.ssls, k, Apply(e.ssls[k], q));
      CalmFlow(e, e');
    case AcceptTcp => AcceptFlows(e);
    case AcceptUdp(src, data) =>
      var u := U.FromClient(e.udp, src);
      var f := Frame(U.SessionOf(u, src), DataUdp, data);
      AddRequestFlows(e.(udp := u), f);
      CalmFlow(e, e');
    case TimerTick(order) => TickFlows(e, order);
    case SenderStep(w, act) => CalmFlow(e, e');
    case _ => ObjFlows(e, st);
  }

  lemma AcceptFlows(e: Endpoint)
    requires SslLast(e)
    ensures Flow(e, AddLocalTcp(e), None)
  {
    forall j | 0 <= j < |e.objs|
      ensures Flows(e.objs[j], AddLocalTcp(e).objs[j], false)
    {
    }
  }

  /** Handling a frame posts at most one STOP_TCP, straight to the connection. */
  lemma HandlesFlows(e: Endpoint, f: Frame)
    requires CanHandle(e, f) && SslLast(e)
    ensures Flow(e, AddResponse(e, f), None)
  {
    hide Outgoing, AddRequest;
    var h := e.(handled := e.handled + [f]);
    var e' := AddResponse(e, f);
    var s := f.session;
    if f.cmd == DataTcp && s in e.relays && e.relays[s].Some? && e.objs[e.relays[s].value].relay.state == Stop {
      AddRequestFlows(h.(relays := h.relays - {s}), StopFrame(s));
      CalmFlow(e, e');
    } else {
      OthersFlow(h, f);
      assert Flow(h, e', None);
    }
  }

  lemma OthersFlow(h: Endpoint, f: Frame)
    requires TableOk(h) && SslLast(h) && |f.data| <= READ_BUFFER_SIZE
    requires !(f.cmd == DataTcp && f.session in h.relays && h.relays[f.session].Some?
               && h.objs[h.relays[f.session].value].relay.state == Stop)
    ensures Flow(h, match f.cmd
                    case DataTcp => OnDataTcp(h, f)
                    case DataUdp => OnDataUdp(h, f)
                    case StartTcp => StartRemoteTcp(h, f)
                    case StopTcp => OnStopTcp(h, f)
                    case StopUdp => h
                    case Unknown(_) => h, None)
  {
    hide Outgoing, AddRequest;
    match f.cmd
    case DataTcp => CalmFlow(h, OnDataTcp(h, f));
    case DataUdp => UdpFlow(h, f);
    case StartTcp => StartFlow(h, f);
    case StopTcp => CalmFlow(h, OnStopTcp(h, f));
    case StopUdp => CalmFlow(h, h);
    case Unknown(_) => CalmFlow(h, h);
  }

  lemma UdpFlow(h: Endpoint, f: Frame)
    requires TableOk(h) && SslLast(h)
    ensures Flow(h, OnDataUdp(h, f), None)
  {
    hide Outgoing, Flow;
    match h.role
    case LocalServer => CalmFlow(h, h);
    case LocalTransparent => CalmFlow(h, OnDataUdp(h, f));
    case RemoteServer => RemoteUdpFlow(h, f);
  }

  lemma RemoteUdpFlow(h: Endpoint, f: Frame)
    requires TableOk(h) && SslLast(h)
    ensures Flow(h, RemoteSendUdp(h, f), None)
  {
    hide Outgoing, Flow, Load;
    var v := Lookup(h, f.session);
    if v.None? || h.objs[v.value].relay.state == Stop {
      GrowFlow(h, RemoteSendUdp(h, f));
    } else {
      CalmFlow(h, RemoteSendUdp(h, f));
    }
  }

  /** A new relay that has posted nothing. */
  lemma GrowFlow(h: Endpoint, e': Endpoint)
    requires SslLast(h) && e'.ssl == h.ssl && e'.ssls == h.ssls && e'.role == h.role
    requires |e'.objs| == |h.objs| + 1 && Calm(h, e'.(objs := e'.objs[..|h.objs|]))
    requires NewObj(e'.objs[|h.objs|])
    ensures Flow(h, e', None)
  {
    hide Outgoing;
    forall j | 0 <= j < |h.objs|
      ensures Flows(h.objs[j], e'.objs[j], false)
    {
      assert e'.objs[..|h.objs|][j] == e'.objs[j];
    }
  }

  lemma StartFlow(h: Endpoint, f: Frame)
    requires TableOk(h) && SslLast(h) && |f.data| <= READ_BUFFER_SIZE
    ensures Flow(h, StartRemoteTcp(h, f), None)
  {
    hide Outgoing, Flow, Calm;
    HaltCalm(h, f);
    match DestOf(f.data)
    case Ok(_) => GrowFlow(h, StartRemoteTcp(h, f));
    case Err(_) => CalmFlow(h, StartRemoteTcp(h, f));
  }

  lemma PostCalm(h: Endpoint, i: nat)
    requires i < |h.objs|
    ensures Calm(h, PostObj(h, i, Halt))
  {
  }

  /** The old relays after START_TCP. */
  lemma HaltCalm(h: Endpoint, f: Frame)
    requires TableOk(h) && |f.data| <= READ_BUFFER_SIZE
    ensures var e' := StartRemoteTcp(h, f); |e'.objs| >= |h.objs| && Calm(h, e'.(objs := e'.objs[..|h.objs|]))
    ensures DestOf(f.data).Err? ==> Calm(h, StartRemoteTcp(h, f))
  {
    hide Calm, PostObj;
    var v := Lookup(h, f.session);
    if v.Some? {
      PostCalm(h, v.value);
      HaltedCalm(h, f, PostObj(h, v.value, Halt));
    } else {
      SameCalm(h);
      HaltedCalm(h, f, h);
    }
  }

  lemma SameCalm(h: Endpoint)
    ensures Calm(h, h)
  {
  }

  lemma HaltedCalm(h: Endpoint, f: Frame, e1: Endpoint)
    requires TableOk(h) && |f.data| <= READ_BUFFER_SIZE && Calm(h, e1) && |e1.objs| == |h.objs|
    requires e1 == var v := Lookup(h, f.session); if v.Some? then PostObj(h, v.value, Halt) else h
    ensures var e' := StartRemoteTcp(h, f); |e'.objs| >= |h.objs| && Calm(h, e'.(objs := e'.objs[..|h.objs|]))
    ensures DestOf(f.data).Err? ==> Calm(h, StartRemoteTcp(h, f))
  {
    hide Calm, PostObj;
    var e' := StartRemoteTcp(h, f);
    match DestOf(f.data)
    case Ok(_) =>
      assert e'.objs[..|h.objs|] == e1.objs;
      CalmSame(h, h, e1, e'.(objs := e'.objs[..|h.objs|]));
    case Err(_) =>
      assert e'.objs[..|h.objs|] == e1.objs;
      CalmSame(h, h, e1, e');
  }

  function TookMove(m: Move): Option<nat> {
    if m.Own? then TookOf(m.st) else None
  }

  lemma MoveFlows(e: Endpoint, m: Move)
    requires CanMove(e, m) && SslLast(e)
    ensures Flow(e, Moved(e, m), TookMove(m))
  {
    hide Flow, Outgoing;
    match m
    case Own(st) => OwnFlows(e, st);
    case Handles(f) => HandlesFlows(e, f);
    case Hears(k) =>
      SetLast(e.ssls, k, ResetTimeout(e.ssls[k]));
      CalmFlow(e, Moved(e, m));
    case Breaks(k) =>
      StepFrame(e.ssls[k], CallStop);
      SetLast(e.ssls, k, Apply(e.ssls[k], CallStop));
      CalmFlow(e, Moved(e, m));
    case Waits => CalmFlow(e, e);
  }

  // -------------------------------------------------------------- behaviours

  /** An end before anything has happened. */
  predicate NewEnd(e: Endpoint) {
    e == NewRemote() || e == NewLocal(LocalServer) || e == NewLocal(LocalTransparent)
  }

  lemma SentLast(e: Endpoint)
    requires AllSent(e)
    ensures SslLast(e)
  {
  }

  /** In every behaviour of an end, from the start: all bytes a relay has read
      are in what it posted, in order, and when its read loop is over a STOP_TCP
      of its session follows them, in the outbox or offered to the connections. */
  lemma {:induction false} EverythingIsPosted(es: seq<Endpoint>, ms: seq<Move>, i: nat)
    requires EndBehaviour(es, ms) && NewEnd(es[0]) && i <= |ms|
    ensures AllSent(es[i])
    decreases i
  {
    hide CanMove, Moved;
    if i > 0 {
      EverythingIsPosted(es, ms, i - 1);
      MoveSent(es[i - 1], ms[i - 1]);
    }
  }

  lemma MoveSent(e: Endpoint, m: Move)
    requires AllSent(e) && CanMove(e, m)
    ensures AllSent(Moved(e, m))
  {
    hide CanMove, Moved, AllSent, Flow;
    SentLast(e);
    MoveFlows(e, m);
    FlowSent(e, Moved(e, m), TookMove(m));
  }

  // ------------------------------------------------- every notice is on its way

  /** f waits in relay i's outbox or was offered to the connections. */
  predicate Underway(e: Endpoint, i: nat, f: Frame) {
    (i < |e.objs| && f in e.objs[i].outbox) || f in Outgoing(e.ssls)
  }

  lemma MoveUnderway(e: Endpoint, m: Move, i: nat, f: Frame)
    requires SslLast(e) && CanMove(e, m) && Underway(e, i, f)
    ensures SslLast(Moved(e, m)) && Underway(Moved(e, m), i, f)
  {
    hide CanMove, Moved, Outgoing, SslLast;
    var e' := Moved(e, m);
    MoveFlows(e, m);
    if i < |e.objs| && f in e.objs[i].outbox {
      assert Flows(e.objs[i], e'.objs[i], TookMove(m) == Some(i));
      var j :| 0 <= j < |e.objs[i].outbox| && e.objs[i].outbox[j] == f;
      if TookMove(m) == Some(i) {
        assert j > 0 ==> e'.objs[i].outbox[j - 1] == f;
        assert Outgoing(e'.ssls)[|Outgoing(e.ssls)|] == e.objs[i].outbox[0];
      } else {
        assert e'.objs[i].outbox[j] == f;
      }
    } else {
      var j :| 0 <= j < |Outgoing(e.ssls)| && Outgoing(e.ssls)[j] == f;
      assert Outgoing(e'.ssls)[j] == f;
    }
  }

  lemma {:induction false} StaysUnderway(es: seq<Endpoint>, ms: seq<Move>, i: nat, f: Frame, j: nat, n: nat)
    requires EndBehaviour(es, ms) && j <= n <= |ms| && SslLast(es[j]) && Underway(es[j], i, f)
    ensures SslLast(es[n]) && Underway(es[n], i, f)
    decreases n - j
  {
    hide CanMove, Moved, Underway, SslLast;
    if j < n {
      MoveUnderway(es[j], ms[j], i, f);
      StaysUnderway(es, ms, i, f, j + 1, n);
    }
  }

  /** The steps that end relay i: its start throws, its read loop throws, the
      write of its SOCKS reply throws. */
  predicate Ends(e: Endpoint, st: Endpoints.Step, i: nat) {
    i < |e.objs| && (st == StartFails(i) || (st == ReadFails(i) && Tcp(e.objs[i])) || st == ReplyEnds(i, false))
  }

  /** DATA_TCP for a relay that has stopped. */
  predicate FindsStopped(e: Endpoint, f: Frame) {
    && f.cmd == DataTcp && TableOk(e) && f.session in e.relays && e.relays[f.session].Some?
    && e.objs[e.relays[f.session].value].relay.state == Stop
  }

  lemma EndingPosts(e: Endpoint, st: Endpoints.Step, i: nat)
    requires Endpoints.Enabled(e, st) && Ends(e, st, i)
    ensures var o' := Endpoints.Do(e, st).objs[i];
            && o'.outbox == e.objs[i].outbox + [Frame(e.objs[i].session, StopTcp, [])]
            && o'.relay.stopCalled && o'.relay.stops == e.objs[i].relay.stops + 1
  {
  }

  lemma StoppedIsAnswered(e: Endpoint, f: Frame)
    requires CanHandle(e, f) && SslLast(e) && FindsStopped(e, f)
    ensures var e' := AddResponse(e, f);
            && f.session !in e'.relays && SslLast(e')
            && Outgoing(e'.ssls) == Outgoing(e.ssls) + [Frame(f.session, StopTcp, [])]
  {
    hide Outgoing;
    var h := e.(handled := e.handled + [f]);
    AddRequestFlows(h.(relays := h.relays - {f.session}), StopFrame(f.session));
  }

  lemma NothingOffered(e: Endpoint, f: Frame)
    requires CanHandle(e, f) && !FindsStopped(e, f)
    ensures AddResponse(e, f).ssls == e.ssls
  {
    match f.cmd
    case StartTcp => if DestOf(f.data).Ok? {} else {}
    case DataUdp => match e.role { case RemoteServer => case _ => }
    case _ =>
  }

  /** Whatever ends a relay, and a DATA_TCP that finds it stopped: from then on a
      STOP_TCP of its session is on its way, in every behaviour. */
  lemma StopIsNeverLost(es: seq<Endpoint>, ms: seq<Move>, i: nat, j: nat, n: nat)
    requires EndBehaviour(es, ms) && NewEnd(es[0]) && j < n <= |ms| && i < |es[j].objs|
    requires (ms[j].Own? && Ends(es[j], ms[j].st, i))
             || (ms[j].Handles? && FindsStopped(es[j], ms[j].f) && ms[j].f.session == es[j].objs[i].session)
    ensures Underway(es[n], i, Frame(es[j].objs[i].session, StopTcp, []))
  {
    hide CanMove, Moved, Underway, SslLast, Ends, FindsStopped, NewEnd, Flow;
    var f := Frame(es[j].objs[i].session, StopTcp, []);
    EverythingIsPosted(es, ms, j);
    EverythingIsPosted(es, ms, j + 1);
    SentLast(es[j]);
    SentLast(es[j + 1]);
    StopAppears(es[j], ms[j], i);
    StaysUnderway(es, ms, i, f, j + 1, n);
  }

  lemma StopAppears(e: Endpoint, m: Move, i: nat)
    requires CanMove(e, m) && SslLast(e) && i < |e.objs|
    requires (m.Own? && Ends(e, m.st, i)) || (m.Handles? && FindsStopped(e, m.f) && m.f.session == e.objs[i].session)
    ensures Underway(Moved(e, m), i, Frame(e.objs[i].session, StopTcp, []))
  {
    hide Outgoing, FindsStopped;
    var f := Frame(e.objs[i].session, StopTcp, []);
    if m.Own? {
      EndingPosts(e, m.st, i);
      var box := Moved(e, m).objs[i].outbox;
      assert box[|box| - 1] == f;
    } else {
      StoppedIsAnswered(e, m.f);
      assert Outgoing(Moved(e, m).ssls)[|Outgoing(e.ssls)|] == f;
    }
  }

  // ------------------------------------------------------- where it arrives

  /** The session's entry is gone and its relay v has been told to stop. */
  predicate IsOut(e: Endpoint, s: nat, v: nat) {
    s !in e.relays && v < |e.objs| && e.objs[v].session == s && e.objs[v].relay.stopCalled
  }

  /** STOP_TCP takes the session's relay out and stops it, and only that. */
  lemma StopArrives(e: Endpoint, f: Frame)
    requires CanHandle(e, f) && f.cmd == StopTcp && f.session in e.relays && e.relays[f.session].Some?
    ensures var e' := AddResponse(e, f);
            var v := e.relays[f.session].value;
            && IsOut(e', f.session, v) && e'.relays == e.relays - {f.session} && |e'.objs| == |e.objs|
            && e'.objs[v].relay.inbox == e.objs[v].relay.inbox + [Halt]
            && (forall i | 0 <= i < |e.objs| && i != v :: e'.objs[i] == e.objs[i])
            && e'.ssls == e.ssls && e'.udp == e.udp
  {
  }

  /** What can give the number an entry again: START_TCP, UDP data at a remote
      end, an accepted connection that gets this number. */
  predicate Reuses(e: Endpoint, m: Move, s: nat) {
    match m
    case Own(st) => st == AcceptTcp && e.udp.session == s
    case Handles(f) => f.session == s && (f.cmd == StartTcp || (f.cmd == DataUdp && e.role == RemoteServer))
    case _ => false
  }

  lemma OwnOut(e: Endpoint, st: Endpoints.Step, s: nat)
    requires Endpoints.Enabled(e, st) && s !in e.relays && !Reuses(e, Own(st), s)
    ensures s !in Endpoints.Do(e, st).relays
  {
    match st
    case TimerTick(order) => if SslIdle(e) && e.role == RemoteServer {} else {}
    case _ =>
  }

  lemma HandlesOut(e: Endpoint, f: Frame, s: nat)
    requires CanHandle(e, f) && s !in e.relays && !Reuses(e, Handles(f), s)
    ensures s !in AddResponse(e, f).relays
  {
    match f.cmd
    case StartTcp => if DestOf(f.data).Ok? {} else {}
    case DataUdp => match e.role { case RemoteServer => case _ => }
    case _ =>
  }

  lemma MoveOut(e: Endpoint, m: Move, s: nat, v: nat)
    requires SslLast(e) && CanMove(e, m) && IsOut(e, s, v) && !Reuses(e, m, s)
    ensures SslLast(Moved(e, m)) && IsOut(Moved(e, m), s, v)
  {
    hide Outgoing, SslLast;
    MoveFlows(e, m);
    OutOfTable(e, m, s);
    assert Flows(e.objs[v], Moved(e, m).objs[v], TookMove(m) == Some(v));
  }

  lemma OutOfTable(e: Endpoint, m: Move, s: nat)
    requires CanMove(e, m) && s !in e.relays && !Reuses(e, m, s)
    ensures s !in Moved(e, m).relays
  {
    match m
    case Own(st) => OwnOut(e, st, s);
    case Handles(f) => HandlesOut(e, f, s);
    case _ =>
  }

  /** Once out, out for good, as long as the number is not used again. */
  lemma {:induction false} StaysOut(es: seq<Endpoint>, ms: seq<Move>, s: nat, v: nat, j: nat, n: nat)
    requires EndBehaviour(es, ms) && j <= n <= |ms| && SslLast(es[j]) && IsOut(es[j], s, v)
    requires forall i {:trigger ms[i]} | j <= i < n :: !Reuses(es[i], ms[i], s)
    ensures IsOut(es[n], s, v)
    decreases n - j
  {
    hide CanMove, Moved, IsOut, SslLast, Reuses;
    if j < n {
      MoveOut(es[j], ms[j], s, v);
      StaysOut(es, ms, s, v, j + 1, n);
    }
  }

  /** In every behaviour: STOP_TCP that finds an entry closes the session at this
      end, for as long as the number is not used again. */
  lemma StopEndsSession(es: seq<Endpoint>, ms: seq<Move>, j: nat, n: nat)
    requires EndBehaviour(es, ms) && NewEnd(es[0]) && j < n <= |ms|
    requires ms[j].Handles? && ms[j].f.cmd == StopTcp
    requires ms[j].f.session in es[j].relays && es[j].relays[ms[j].f.session].Some?
    requires forall i {:trigger ms[i]} | j < i < n :: !Reuses(es[i], ms[i], ms[j].f.session)
    ensures IsOut(es[n], ms[j].f.session, es[j].relays[ms[j].f.session].value)
  {
    hide IsOut, Reuses;
    EverythingIsPosted(es, ms, j + 1);
    SentLast(es[j + 1]);
    StopArrives(es[j], ms[j].f);
    StaysOut(es, ms, ms[j].f.session, es[j].relays[ms[j].f.session].value, j + 1, n);
  }
}
