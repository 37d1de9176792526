/** What the rest of the system can see of a step of one end: connections and
    the list of relays only grow, numbers stay given out. */
module EndMoves {
  import opened Bytes
  import opened RelayData
  import opened RelayQueue
  import opened SslReader
  import opened Streams
  import opened Endpoints
  import opened EndpointInv
  import opened EndpointSteps
  import opened EndpointStrands
  import U = UdpTables

  // ------------------------------------------- what the others see of an end

  /** Connections only get longer streams. */
  predicate Longer(a: Relay, b: Relay) {
    a.out <= b.out && a.offered <= b.offered && a.accepted <= b.accepted && b.dials == a.dials
  }

  predicate Grown(a: seq<Relay>, b: seq<Relay>) {
    && |a| <= |b| <= |a| + 1
    && (forall k | 0 <= k < |a| :: Longer(a[k], b[k]))
    && (|b| == |a| + 1 ==> b[|a|].out == [])
  }

  predicate SameObjs(e: Endpoint, e': Endpoint) {
    && |e.objs| <= |e'.objs|
    && forall i | 0 <= i < |e.objs| ::
         e'.objs[i].session == e.objs[i].session && e'.objs[i].relay.kind == e.objs[i].relay.kind
  }

  predicate UdpGrown(u: U.Udp, u': U.Udp) {
    u.session <= u'.session && u.owners.Keys <= u'.owners.Keys
  }

  predicate Moves(e: Endpoint, e': Endpoint) {
    && e'.role == e.role && Grown(e.ssls, e'.ssls) && SameObjs(e, e') && UdpGrown(e.udp, e'.udp)
    && (e.role == RemoteServer ==> |e'.ssls| == |e.ssls|)
  }

  lemma GrownTrans(e: Endpoint, f: Endpoint, g: Endpoint)
    requires Moves(e, f) && Moves(f, g) && |g.ssls| <= |e.ssls| + 1
    requires |f.ssls| == |e.ssls| || g.ssls == f.ssls
    ensures Moves(e, g)
  {
    forall k | 0 <= k < |e.ssls|
      ensures Longer(e.ssls[k], g.ssls[k])
    {
      assert Longer(e.ssls[k], f.ssls[k]) && Longer(f.ssls[k], g.ssls[k]);
    }
  }

  lemma AddRequestMoves(e: Endpoint, f: Frame)
    requires SslOk(e)
    ensures Moves(e, AddRequest(e, f)) && AddRequest(e, f).handled == e.handled && |AddRequest(e, f).objs| == |e.objs|
    ensures AddRequest(e, f).udp == e.udp
  {
    if SslDown(e) && e.role == RemoteServer {
      StopManagerMoves(RefuseSsl(e, f));
    }
  }

  lemma StopManagerMoves(e: Endpoint)
    ensures SameObjs(e, StopManager(e)) && |StopManager(e).objs| == |e.objs|
  {
  }

  lemma TimerMoves(e: Endpoint, order: seq<U.Client>)
    requires CanTick(e, order)
    ensures Moves(e, TimerTurn(e, order)) && TimerTurn(e, order).handled == e.handled
    ensures |TimerTurn(e, order).objs| == |e.objs|
  {
    var e1 := TickSsl(e);
    assert e1.objs == e.objs && Grown(e.ssls, e1.ssls) by {
      if e.ssl.Some? {
        if e.ssls[e.ssl.value].timeout == 1 {} else {}
      }
    }
    if SslIdle(e) && e.role == RemoteServer {
      StopManagerMoves(e1);
    } else {
      var u := if SslIdle(e) then U.Clear(e.udp) else e.udp;
      assert u.srcs == TickSources(e);
      TickRelaysMoves(e1.(udp := U.Expire(u, order)));
    }
  }

  lemma TickRelaysMoves(e: Endpoint)
    requires TableOk(e)
    ensures SameObjs(e, TickRelays(e)) && |TickRelays(e).objs| == |e.objs|
  {
    forall i | 0 <= i < |e.objs|
      ensures TickObjs(e)[i].session == e.objs[i].session && TickObjs(e)[i].relay.kind == e.objs[i].relay.kind
    {
      if e.objs[i].relay.timeout == 1 {} else {}
    }
  }

  lemma ObjMoves(e: Endpoint, st: Endpoints.Step)
    requires Endpoints.Enabled(e, st)
    requires st.ObjStep? || st.EmitStart? || st.ReadSome? || st.ReadFails? || st.StartFails? || st.ReplyEnds? || st.RecvFrom?
    ensures var e' := Endpoints.Do(e, st);
            Moves(e, e') && e'.handled == e.handled && |e'.objs| == |e.objs| && e'.ssls == e.ssls
  {
    match st
    case ObjStep(i, q) => StepFrame(e.objs[i].relay, q);
    case _ =>
  }

  lemma StepMoves(e: Endpoint, st: Endpoints.Step)
    requires Endpoints.Enabled(e, st)
    ensures var e' := Endpoints.Do(e, st);
            Moves(e, e') && e'.handled == e.handled && (e.role == RemoteServer ==> |e'.objs| == |e.objs|)
  {
    hide TimerTurn, SendUdpData;
    match st
    case Request(i) =>
      AddRequestMoves(TakeRequest(e, i), e.objs[i].outbox[0]);
      GrownTrans(e, TakeRequest(e, i), Endpoints.Do(e, st));
    case SslStep(k, q) =>
      StepFrame(e.ssls[k], q);
      AcceptsWhatCame(e.ssls[k], q);
    case AcceptTcp =>
    case AcceptUdp(src, data) =>
      AcceptUdpMoves(e, src, data);
    case TimerTick(order) => TimerMoves(e, order);
    case SenderStep(x, act) =>
    case _ => ObjMoves(e, st);
  }

  lemma AcceptUdpMoves(e: Endpoint, src: U.Client, data: seq<byte>)
    requires SslOk(e) && e.udp.senders != []
    ensures Moves(e, SendUdpData(e, src, data)) && SendUdpData(e, src, data).handled == e.handled
  {
    var u := U.FromClient(e.udp, src);
    AddRequestMoves(e.(udp := u), Frame(U.SessionOf(u, src), DataUdp, data));
    assert Moves(e, e.(udp := u));
    GrownTrans(e, e.(udp := u), SendUdpData(e, src, data));
  }

  /** The only new TCP relay is one for a START_TCP's session. */
  predicate NewTcpOnly(e: Endpoint, e': Endpoint, f: Frame) {
    && |e'.objs| <= |e.objs| + 1
    && (|e'.objs| == |e.objs| + 1 && Tcp(e'.objs[|e.objs|]) ==> f.cmd == StartTcp && e'.objs[|e.objs|].session == f.session)
  }

  lemma DataMoves(e: Endpoint, f: Frame)
    requires TableOk(e) && SslOk(e)
    ensures var e' := OnDataTcp(e, f);
            Moves(e, e') && e'.handled == e.handled && |e'.objs| == |e.objs|
  {
    var s := f.session;
    if s in e.relays && e.relays[s].Some? {
      if e.objs[e.relays[s].value].relay.state == Stop {
        var g := e.(relays := e.relays - {s});
        AddRequestMoves(g, StopFrame(s));
        assert Moves(e, g);
        GrownTrans(e, g, AddRequest(g, StopFrame(s)));
      } else {
      }
    }
  }

  lemma RemoteUdpMoves(e: Endpoint, f: Frame)
    requires TableOk(e)
    ensures var e' := RemoteSendUdp(e, f);
            Moves(e, e') && e'.handled == e.handled && NewTcpOnly(e, e', f) && e'.ssls == e.ssls
  {
    var v := Lookup(e, f.session);
    if v.None? || e.objs[v.value].relay.state == Stop {
    } else {
    }
  }

  lemma UdpMoves(e: Endpoint, f: Frame)
    requires TableOk(e)
    ensures var e' := OnDataUdp(e, f);
            Moves(e, e') && e'.handled == e.handled && NewTcpOnly(e, e', f) && e'.ssls == e.ssls
  {
    match e.role
    case LocalTransparent =>
    case LocalServer =>
    case RemoteServer => RemoteUdpMoves(e, f);
  }

  lemma StartMoves(e: Endpoint, f: Frame)
    requires TableOk(e) && |f.data| <= READ_BUFFER_SIZE && f.cmd == StartTcp
    ensures var e' := StartRemoteTcp(e, f);
            Moves(e, e') && e'.handled == e.handled && NewTcpOnly(e, e', f) && e'.ssls == e.ssls
  {
    var v := Lookup(e, f.session);
    var e1 := if v.Some? then PostObj(e, v.value, Halt) else e;
    assert SameObjs(e, e1);
    match DestOf(f.data)
    case Ok(d) =>
    case Err(_) =>
  }

  lemma ResponseMoves(e: Endpoint, f: Frame)
    requires CanHandle(e, f)
    ensures var e' := AddResponse(e, f);
            && Moves(e, e') && e'.handled == e.handled + [f] && NewTcpOnly(e, e', f)
            && (f.cmd == StartTcp ==> e'.ssls == e.ssls)
  {
    var h := e.(handled := e.handled + [f]);
    assert Moves(e, h);
    match f.cmd
    case DataTcp => DataMoves(h, f); assert Moves(e, AddResponse(e, f));
    case DataUdp => UdpMoves(h, f); assert Moves(e, AddResponse(e, f));
    case StartTcp => StartMoves(h, f); assert Moves(e, AddResponse(e, f));
    case StopTcp => StopMoves(h, f); assert Moves(e, AddResponse(e, f));
    case StopUdp =>
    case Unknown(_) =>
  }

  lemma StopMoves(e: Endpoint, f: Frame)
    requires TableOk(e)
    ensures var e' := OnStopTcp(e, f);
            Moves(e, e') && e'.handled == e.handled && |e'.objs| == |e.objs|
  {
    var s := f.session;
    if s in e.relays && e.relays[s].Some? {
    } else {
    }
  }
}
