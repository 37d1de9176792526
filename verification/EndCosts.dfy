/** Every handler and every step of one end that needs no input from outside
    uses up some of its remaining work. */
module EndCosts {
  import opened Bytes
  import opened RelayData
  import opened RelayQueue
  import opened SslReader
  import opened Endpoints
  import opened EndpointInv
  import opened EndpointSteps
  import opened Shape
  import opened Potential
  import A = Addresses
  import U = UdpTables

  // ------------------------------------------------------------- one part moves

  lemma ObjsCost(e: Endpoint, e': Endpoint, i: nat, d: int)
    requires e'.ssls == e.ssls && e'.udp.senders == e.udp.senders
    requires i < |e.objs| == |e'.objs| && ObjCosts(e')[i] <= ObjCosts(e)[i] + d
    requires forall j | 0 <= j < |e.objs| && j != i :: ObjCosts(e')[j] <= ObjCosts(e)[j]
    ensures EndCost(e') <= EndCost(e) + d
  {
    SumChange(ObjCosts(e), ObjCosts(e'), i, d);
  }

  lemma SslsCost(e: Endpoint, k: nat, r: Relay, d: int)
    requires k < |e.ssls| && SslCost(r) <= SslCost(e.ssls[k]) + d
    ensures EndCost(SetSsl(e, k, r)) <= EndCost(e) + d
  {
    var e' := SetSsl(e, k, r);
    assert ObjCosts(e') == ObjCosts(e) by {
      assert forall i | 0 <= i < |e.objs| :: InTable(e', i) <==> InTable(e, i);
    }
    SumChange(SslCosts(e.ssls), SslCosts(e'.ssls), k, d);
  }

  lemma SendersCost(e: Endpoint, u: U.Udp)
    ensures EndCost(e.(udp := u)) == EndCost(e) - Sum(SenderCosts(e.udp.senders)) + Sum(SenderCosts(u.senders))
  {
    var e' := e.(udp := u);
    assert ObjCosts(e') == ObjCosts(e) by {
      assert forall i | 0 <= i < |e.objs| :: InTable(e', i) <==> InTable(e, i);
    }
  }

  /** One relay changes, the table stays. */
  lemma SetObjCost(e: Endpoint, i: nat, o: Obj, d: int)
    requires i < |e.objs| && o.session == e.objs[i].session
    requires ObjCost(o, e.role == RemoteServer, false) <= ObjCost(e.objs[i], e.role == RemoteServer, false) + d
    ensures EndCost(SetObj(e, i, o)) <= EndCost(e) + d
  {
    var e' := SetObj(e, i, o);
    assert forall j | 0 <= j < |e.objs| :: InTable(e', j) <==> InTable(e, j);
    ObjsCost(e, e', i, d);
  }

  /** The table shrinks: entries are only given back. */
  lemma ShrinkCost(e: Endpoint, e': Endpoint)
    requires e' == e.(relays := e'.relays)
    requires forall s | s in e'.relays :: s in e.relays && e'.relays[s] == e.relays[s]
    ensures EndCost(e') <= EndCost(e)
  {
    forall j | 0 <= j < |e.objs|
      ensures ObjCosts(e')[j] <= ObjCosts(e)[j]
    {
      assert InTable(e', j) ==> InTable(e, j);
    }
    SumLe(ObjCosts(e), ObjCosts(e'));
  }

  lemma DropEntryCost(e: Endpoint, s: nat)
    requires TableOk(e) && s in e.relays && e.relays[s].Some?
    ensures EndCost(e.(relays := e.relays - {s})) + ENTRY <= EndCost(e)
  {
    var e' := e.(relays := e.relays - {s});
    var v := e.relays[s].value;
    assert InTable(e, v) && !InTable(e', v);
    forall j | 0 <= j < |e.objs|
      ensures ObjCosts(e')[j] <= ObjCosts(e)[j]
    {
      assert InTable(e', j) ==> InTable(e, j);
    }
    ObjsCost(e, e', v, -(ENTRY as int));
  }

  /** A new relay takes the place of its session's entry. */
  lemma AddObjCost(e: Endpoint, o: Obj)
    requires ObjCost(o, e.role == RemoteServer, true) <= NEW_RELAY && TableOk(e)
    ensures EndCost(e.(objs := e.objs + [o], relays := e.relays[o.session := Some(|e.objs|)])) <= EndCost(e) + NEW_RELAY
  {
    var e' := e.(objs := e.objs + [o], relays := e.relays[o.session := Some(|e.objs|)]);
    var n := |e.objs|;
    var rest := ObjCosts(e')[..n];
    forall j | 0 <= j < n
      ensures rest[j] <= ObjCosts(e)[j]
    {
      assert InTable(e', j) ==> InTable(e, j);
    }
    SumLe(ObjCosts(e), rest);
    assert InTable(e', n);
    assert ObjCosts(e') == rest + [ObjCosts(e')[n]];
    SumAppend(rest, ObjCosts(e')[n]);
  }

  lemma PostObjCost(e: Endpoint, i: nat, m: RelayQueue.Message)
    requires i < |e.objs|
    ensures EndCost(PostObj(e, i, m)) <= EndCost(e) + MessageCost(m)
  {
    PostCost(e.objs[i].relay, m);
    SetObjCost(e, i, e.objs[i].(relay := Post(e.objs[i].relay, m)), MessageCost(m));
  }

  lemma SendObjCost(e: Endpoint, i: nat, f: Frame)
    requires i < |e.objs| && e.objs[i].relay.kind != Ssl
    ensures EndCost(SendObj(e, i, f)) <= EndCost(e) + 2 * |f.data| + 5
  {
    PostObjCost(e, i, Send(Load(e.objs[i].relay.kind, f)));
    assert |Load(e.objs[i].relay.kind, f).bytes| <= |f.data|;
  }

  // --------------------------------------------------------------- add_request

  lemma OfferCost(r: Relay, f: Frame)
    ensures SslCost(Post(r, Send(Load(Ssl, f)))) <= SslCost(r) + Sending(f)
    ensures SslCost(Refuse(r, Load(Ssl, f))) <= SslCost(r) + Sending(f)
  {
    var b := Load(Ssl, f);
    PostCost(r, Send(b));
    SendsSplit(r.inbox, [Send(b)]);
    SendsOne(Send(b));
    BufsHandling(Sends(r.inbox), [b]);
    assert Frames([b]) == [] + [f];
    HandlingAppend([], f);
  }

  lemma StopManagerCost(e: Endpoint)
    ensures EndCost(StopManager(e)) <= EndCost(e)
  {
    var e' := StopManager(e);
    forall j | 0 <= j < |e.objs|
      ensures ObjCosts(e')[j] <= ObjCosts(e)[j]
    {
      PostCost(e.objs[j].relay, Halt);
    }
    SumLe(ObjCosts(e), ObjCosts(e'));
  }

  lemma OpenSslCost(e: Endpoint)
    ensures EndCost(OpenSsl(e)) == EndCost(e) + 2
  {
    var e' := OpenSsl(e);
    assert ObjCosts(e') == ObjCosts(e) by {
      assert forall i | 0 <= i < |e.objs| :: InTable(e', i) <==> InTable(e, i);
    }
    assert Frames([]) == [] && Sends([]) == [];
    assert SslCosts(e'.ssls) == SslCosts(e.ssls) + [2];
    SumAppend(SslCosts(e.ssls), 2);
  }

  /** What a connection that an end dials will cost at the other end. */
  function Dials(e: Endpoint, e': Endpoint): int {
    DIAL * (|e'.ssls| - |e.ssls|)
  }

  lemma AddRequestCost(e: Endpoint, f: Frame)
    requires SslOk(e)
    ensures EndCost(AddRequest(e, f)) + Dials(e, AddRequest(e, f)) <= EndCost(e) + OPEN + Sending(f)
  {
    hide EndCost;
    if !SslDown(e) {
      OfferSslCost(e, f);
    } else if e.role == RemoteServer {
      OfferSslCost(e, f);
      StopManagerCost(RefuseSsl(e, f));
    } else {
      OpenSslCost(e);
      OfferSslCost(OpenSsl(e), f);
    }
  }

  lemma OfferSslCost(e: Endpoint, f: Frame)
    requires SslOk(e)
    ensures e.ssl.Some? ==> EndCost(PostSsl(e, e.ssl.value, f)) <= EndCost(e) + Sending(f)
    ensures EndCost(RefuseSsl(e, f)) <= EndCost(e) + Sending(f)
  {
    if e.ssl.Some? {
      var k := e.ssl.value;
      OfferCost(e.ssls[k], f);
      SslsCost(e, k, Post(e.ssls[k], Send(Load(Ssl, f))), Sending(f));
      SslsCost(e, k, Refuse(e.ssls[k], Load(Ssl, f)), Sending(f));
    }
  }

  // -------------------------------------------------------------- add_response

  /** What the costs of a handler depend on. */
  ghost predicate Raw(e: Endpoint) {
    TableInv(e) && e.udp.senders != [] && forall i | 0 <= i < |e.objs| :: e.objs[i].relay.kind != Ssl
  }

  lemma RawOnly(e: Endpoint)
    requires Shaped(e)
    ensures Raw(e)
  {
    forall i | 0 <= i < |e.objs|
      ensures e.objs[i].relay.kind != Ssl
    {
      assert ObjShape(e.objs[i], InTable(e, i), Remote(e));
    }
  }

  lemma DataCost(e: Endpoint, f: Frame)
    requires Raw(e) && TableOk(e) && SslOk(e)
    ensures EndCost(OnDataTcp(e, f)) + Dials(e, OnDataTcp(e, f)) <= EndCost(e) + 2 * |f.data| + 5
  {
    var s := f.session;
    if s in e.relays {
      var v := e.relays[s].value;
      if e.objs[v].relay.state == Stop {
        DropEntryCost(e, s);
        AddRequestCost(e.(relays := e.relays - {s}), StopFrame(s));
      } else {
        SendObjCost(e, v, f);
      }
    }
  }

  lemma StopCost(e: Endpoint, f: Frame)
    requires TableOk(e)
    ensures EndCost(OnStopTcp(e, f)) <= EndCost(e) + 1 && OnStopTcp(e, f).ssls == e.ssls
  {
    var s := f.session;
    if s in e.relays && e.relays[s].Some? {
      var h := PostObj(e, e.relays[s].value, Halt);
      PostObjCost(e, e.relays[s].value, Halt);
      ShrinkCost(h, h.(relays := e.relays - {s}));
    } else {
      FaultCost(e);
    }
  }

  lemma FaultCost(e: Endpoint)
    ensures EndCost(Fault(e)) == EndCost(e)
  {
    assert ObjCosts(Fault(e)) == ObjCosts(e) by {
      assert forall i | 0 <= i < |e.objs| :: InTable(Fault(e), i) <==> InTable(e, i);
    }
  }

  lemma StartCost(e: Endpoint, f: Frame)
    requires TableOk(e) && WellFormed(f) && f.cmd == StartTcp && e.role == RemoteServer
    ensures EndCost(StartRemoteTcp(e, f)) <= EndCost(e) + 1 + NEW_RELAY && StartRemoteTcp(e, f).ssls == e.ssls
  {
    var v := Lookup(e, f.session);
    var e1 := if v.Some? then PostObj(e, v.value, Halt) else e;
    if v.Some? {
      PostObjCost(e, v.value, Halt);
      TableAfterPost(e, v.value, Halt);
    }
    var d := DestOf(f.data).dest;
    AddObjCost(e1, Obj(f.session, Fresh(RawTcp, true), NotStarted, false, [], Some(d), [], []));
  }

  lemma TableAfterPost(e: Endpoint, i: nat, m: RelayQueue.Message)
    requires TableOk(e) && i < |e.objs|
    ensures TableOk(PostObj(e, i, m))
  {
  }

  lemma RemoteUdpCost(e: Endpoint, f: Frame)
    requires Raw(e) && TableOk(e) && e.role == RemoteServer
    ensures EndCost(RemoteSendUdp(e, f)) <= EndCost(e) + 2 * |f.data| + 5 + NEW_RELAY
    ensures RemoteSendUdp(e, f).ssls == e.ssls
  {
    var v := Lookup(e, f.session);
    if v.None? || e.objs[v.value].relay.state == Stop {
      var o := Obj(f.session, Fresh(RawUdp, false), Reading, false, [], None, [], []);
      AddObjCost(e, o);
      var g := AddRawUdp(e, f.session);
      assert g.objs[|e.objs|] == o;
      SendObjCost(g, |e.objs|, f);
    } else {
      SendObjCost(e, v.value, f);
    }
  }

  lemma PostToSenderCost(u: U.Udp, m: U.Message)
    requires u.senders != []
    ensures Sum(SenderCosts(U.PostToSender(u, m).senders)) <= Sum(SenderCosts(u.senders)) + 2
  {
    SumChange(SenderCosts(u.senders), SenderCosts(U.PostToSender(u, m).senders), |u.senders| - 1, 2);
  }

  lemma RestartCost(u: U.Udp)
    requires u.senders != []
    ensures U.Restart(u).senders != [] && Sum(SenderCosts(U.Restart(u).senders)) == Sum(SenderCosts(u.senders))
  {
    if U.Stopped(u) {
      assert SenderCosts(U.Restart(u).senders) == SenderCosts(u.senders) + [0];
      SumAppend(SenderCosts(u.senders), 0);
    }
  }

  lemma ToClientCost(e: Endpoint, f: Frame)
    requires e.udp.senders != []
    ensures EndCost(e.(udp := U.ToClient(e.udp, f))) <= EndCost(e) + 2
  {
    RestartCost(e.udp);
    PostToSenderCost(U.Restart(e.udp), U.Out(f));
    SendersCost(e, U.ToClient(e.udp, f));
  }

  lemma HandledCost(e: Endpoint, fs: seq<Frame>)
    ensures EndCost(e.(handled := fs)) == EndCost(e)
  {
    var e' := e.(handled := fs);
    assert ObjCosts(e') == ObjCosts(e) by {
      assert forall i | 0 <= i < |e.objs| :: InTable(e', i) <==> InTable(e, i);
    }
  }

  lemma UdpCost(e: Endpoint, f: Frame)
    requires Raw(e) && TableOk(e)
    ensures EndCost(OnDataUdp(e, f)) < EndCost(e) + 2 * |f.data| + 6 + NEW_RELAY && OnDataUdp(e, f).ssls == e.ssls
  {
    match e.role
    case LocalTransparent => ToClientCost(e, f);
    case RemoteServer => RemoteUdpCost(e, f);
    case LocalServer =>
  }

  /** Handling a frame never costs more than the frame was worth. */
  lemma ResponseCost(e: Endpoint, f: Frame)
    requires Raw(e) && CanHandle(e, f) && WellFormed(f) && (f.cmd == StartTcp ==> e.role == RemoteServer)
    ensures EndCost(AddResponse(e, f)) + Dials(e, AddResponse(e, f)) < EndCost(e) + Handling(f)
  {
    var h := e.(handled := e.handled + [f]);
    HandledCost(e, h.handled);
    match f.cmd
    case DataTcp => DataCost(h, f);
    case DataUdp => UdpCost(h, f);
    case StartTcp => StartCost(h, f);
    case StopTcp => StopCost(h, f);
    case StopUdp =>
    case Unknown(_) =>
  }

  // ------------------------------------------------------------ its own steps

  /** Steps that wait for nothing from outside: no bytes or datagrams arrive, no
      client connects, the clock stands still. */
  predicate Unprompted(st: Endpoints.Step) {
    match st
    case ReadSome(_, _) => false
    case RecvFrom(_, _, _, _) => false
    case AcceptTcp => false
    case AcceptUdp(_, _) => false
    case TimerTick(_) => false
    case SenderStep(_, act) => !act.TurnsStopped?
    case _ => true
  }

  lemma ObjStepCost(e: Endpoint, i: nat, q: RelayQueue.Step)
    requires i < |e.objs| && CanStep(e, e.objs[i], q) && Core(e.objs[i].relay)
    ensures EndCost(SetObj(e, i, ObjAfter(e.objs[i], q, Socks(e, e.objs[i])))) < EndCost(e)
  {
    var o := e.objs[i];
    RelayStepCost(o.relay, q);
    StepFrame(o.relay, q);
    SetObjCost(e, i, ObjAfter(o, q, Socks(e, o)), -1);
  }

  lemma EmitStartCost(e: Endpoint, i: nat, data: seq<byte>)
    requires i < |e.objs| && CanEmitStart(e, e.objs[i], data)
    ensures EndCost(SetObj(e, i, StartEmitted(e.objs[i], data))) < EndCost(e)
  {
    var o := e.objs[i];
    OutboxAppend(o.outbox, Frame(o.session, StartTcp, data));
    SetObjCost(e, i, StartEmitted(o, data), -1);
  }

  lemma ReadFailsCost(e: Endpoint, i: nat)
    requires i < |e.objs| && CanReadFail(e.objs[i])
    ensures EndCost(SetObj(e, i, ReadFailed(e.objs[i]))) < EndCost(e)
  {
    var o := e.objs[i];
    OutboxAppend(o.outbox, StopFrame(o.session));
    CallStopCost(o.relay);
    SetObjCost(e, i, ReadFailed(o), -1);
  }

  lemma CallStopCost(r: Relay)
    requires RelayQueue.Enabled(r, CallStop)
    ensures RelayCost(Apply(r, CallStop)) == RelayCost(r) + 1
  {
  }

  lemma StartFailsCost(e: Endpoint, i: nat)
    requires i < |e.objs| && CanStartFail(e.objs[i]) && Core(e.objs[i].relay)
    ensures EndCost(SetObj(e, i, StartFailed(e.objs[i]))) < EndCost(e)
  {
    var o := e.objs[i];
    OutboxAppend(o.outbox, StopFrame(o.session));
    RelayStepCost(o.relay, StartFail);
    SetObjCost(e, i, StartFailed(o), -1);
  }

  lemma ReplyEndsCost(e: Endpoint, i: nat, ok: bool)
    requires i < |e.objs| && CanEndReply(e.objs[i])
    ensures EndCost(SetObj(e, i, ReplyEnded(e.objs[i], ok))) < EndCost(e)
  {
    var o := e.objs[i];
    OutboxAppend(o.outbox, StopFrame(o.session));
    CallStopCost(o.relay);
    SetObjCost(e, i, ReplyEnded(o, ok), -1);
  }

  lemma RequestCost(e: Endpoint, i: nat)
    requires i < |e.objs| && e.objs[i].outbox != [] && SslOk(e)
    ensures var e' := AddRequest(TakeRequest(e, i), e.objs[i].outbox[0]);
            EndCost(e') + Dials(e, e') < EndCost(e)
  {
    var o := e.objs[i];
    var f := o.outbox[0];
    SetObjCost(e, i, o.(outbox := o.outbox[1..]), -((1 + OPEN + Sending(f)) as int));
    AddRequestCost(TakeRequest(e, i), f);
  }

  lemma SslStepCost(e: Endpoint, k: nat, q: RelayQueue.Step)
    requires k < |e.ssls| && RelayQueue.Enabled(e.ssls[k], q) && q != CallStop && Core(e.ssls[k])
    ensures EndCost(SetSsl(e, k, Apply(e.ssls[k], q))) < EndCost(e)
  {
    RelayStepCost(e.ssls[k], q);
    HandlingFlows(e.ssls[k], q);
    SslsCost(e, k, Apply(e.ssls[k], q), -1);
  }

  lemma SenderStepCost(e: Endpoint, w: nat, act: U.SenderStep)
    requires w < |e.udp.senders| && U.SenderCan(e.udp.senders[w], act) && !act.TurnsStopped?
    ensures EndCost(e.(udp := SenderMoves(e.udp, w, act))) < EndCost(e)
  {
    var u := SenderMoves(e.udp, w, act);
    SumChange(SenderCosts(e.udp.senders), SenderCosts(u.senders), w, -1);
    SendersCost(e, u);
  }

  lemma EndpointStepCost(e: Endpoint, st: Endpoints.Step)
    requires Shaped(e) && Endpoints.Enabled(e, st) && Unprompted(st)
    ensures EndCost(Endpoints.Do(e, st)) + Dials(e, Endpoints.Do(e, st)) < EndCost(e)
  {
    match st
    case ObjStep(i, q) => ObjIsShaped(e, i); ObjStepCost(e, i, q);
    case EmitStart(i, data) => EmitStartCost(e, i, data);
    case ReadFails(i) => ReadFailsCost(e, i);
    case StartFails(i) => ObjIsShaped(e, i); StartFailsCost(e, i);
    case ReplyEnds(i, ok) => ReplyEndsCost(e, i, ok);
    case Request(i) => RequestCost(e, i);
    case SslStep(k, q) => assert SslShape(e.ssls[k], Remote(e)); SslStepCost(e, k, q);
    case SenderStep(w, act) => SenderStepCost(e, w, act);
  }
}
