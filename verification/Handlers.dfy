/** What the manager's handlers and the relays' coroutines leave behind: which
    connection a frame is posted to and when one is replaced, which relay a
    session gets, what a relay is given. */
module Handlers {
  import opened Bytes
  import opened RelayData
  import opened RelayQueue
  import opened SslReader
  import opened Endpoints
  import opened EndpointInv
  import opened EndMoves
  import opened SessionEnd
  import A = Addresses
  import U = UdpTables

  // ------------------------------------------------------------- connections

  /** The newest message in the relay's inbox is this frame, for the wire. */
  predicate HoldsLast(r: Relay, f: Frame) {
    r.inbox != [] && r.inbox[|r.inbox| - 1] == Send(Buf(f, Encode(f)))
  }

  /** A local end posts a frame to a connection that is not stopped: the current
      one if there is such, else a new one that nothing else was posted to. */
  lemma LocalRequest(e: Endpoint, f: Frame)
    requires SslLast(e) && e.role != RemoteServer
    ensures var e' := AddRequest(e, f);
            && e'.ssls != [] && HoldsLast(e'.ssls[|e'.ssls| - 1], f) && e'.ssls[|e'.ssls| - 1].state != Stop
            && (if e.ssls != [] && e.ssls[|e.ssls| - 1].state != Stop
                then |e'.ssls| == |e.ssls| && e'.ssls[..|e.ssls| - 1] == e.ssls[..|e.ssls| - 1]
                     && |e'.ssls[|e.ssls| - 1].inbox| == |e.ssls[|e.ssls| - 1].inbox| + 1
                else |e'.ssls| == |e.ssls| + 1 && e'.ssls[..|e.ssls|] == e.ssls
                     && |e'.ssls[|e.ssls|].inbox| == 1 && e'.ssls[|e.ssls|].dials)
            && e'.objs == e.objs && e'.relays == e.relays && e'.running == e.running
  {
    hide Encode;
    if e.ssls != [] && e.ssls[|e.ssls| - 1].state != Stop {
      var k := |e.ssls| - 1;
      assert AddRequest(e, f) == PostSsl(e, k, f);
    } else {
      assert AddRequest(e, f) == PostSsl(OpenSsl(e), |e.ssls|, f);
    }
  }

  /** A remote end posts it to its connection, or, once that has stopped, gives
      up: every relay in the table is told to stop, and the frame goes nowhere. */
  lemma RemoteRequest(e: Endpoint, f: Frame)
    requires SslLast(e) && e.role == RemoteServer
    ensures var e' := AddRequest(e, f);
            var n := |e.ssls| - 1;
            && |e'.ssls| == |e.ssls|
            && if e.ssls[n].state != Stop
               then HoldsLast(e'.ssls[n], f) && e'.objs == e.objs && e'.relays == e.relays && e'.running == e.running
               else e'.ssls[n].inbox == e.ssls[n].inbox && e'.relays == map[] && !e'.running
                    && |e'.objs| == |e.objs|
                    && forall s, v | s in e.relays && e.relays[s] == Some(v) && v < |e.objs| && e.objs[v].session == s ::
                         e'.objs[v].relay.inbox == e.objs[v].relay.inbox + [Halt]
  {
    if e.ssls[|e.ssls| - 1].state == Stop {
      forall s, v | s in e.relays && e.relays[s] == Some(v) && v < |e.objs| && e.objs[v].session == s
        ensures AddRequest(e, f).objs[v].relay.inbox == e.objs[v].relay.inbox + [Halt]
      {
        assert InTable(e, v);
      }
    }
  }

  /** Whatever stops a relay was announced. */
  predicate Announced(r: Relay) {
    r.state == Stop || r.stops > 0 || Halt in r.inbox ==> r.stopCalled
  }

  /** A connection is replaced only after it was told to stop, and a remote end
      never dials. */
  ghost predicate OnlyStoppedReplaced(e: Endpoint) {
    && SslLast(e) && (e.role == RemoteServer ==> |e.ssls| == 1)
    && (forall k | 0 <= k < |e.ssls| :: Announced(e.ssls[k]))
    && forall k | 0 <= k < |e.ssls| - 1 :: e.ssls[k].stopCalled
  }

  lemma StepAnnounced(r: Relay, q: RelayQueue.Step)
    requires Announced(r) && RelayQueue.Enabled(r, q)
    ensures Announced(Apply(r, q)) && (r.stopCalled ==> Apply(r, q).stopCalled)
  {
    match q
    case Receive =>
      match r.inbox[0] {
        case Halt =>
        case Send(b) => if r.state == Stop {} else {}
      }
    case _ =>
  }

  lemma PostAnnounced(r: Relay, m: Message)
    requires Announced(r)
    ensures Announced(Post(r, m)) && (r.stopCalled ==> Post(r, m).stopCalled)
  {
  }

  lemma DownAnnounced(r: Relay)
    requires Announced(r)
    ensures Announced(TimeoutDown(r)) && (r.stopCalled ==> TimeoutDown(r).stopCalled)
  {
  }

  /** One connection changes. */
  lemma SetReplaced(e: Endpoint, e': Endpoint, k: nat, r: Relay)
    requires OnlyStoppedReplaced(e) && SslLast(e') && k < |e.ssls| && e'.ssls == e.ssls[k := r] && e'.role == e.role
    requires Announced(r) && (e.ssls[k].stopCalled ==> r.stopCalled)
    ensures OnlyStoppedReplaced(e')
  {
    hide Announced;
    forall j | 0 <= j < |e'.ssls|
      ensures Announced(e'.ssls[j]) && (e.ssls[j].stopCalled ==> e'.ssls[j].stopCalled)
    {
      assert j != k ==> e'.ssls[j] == e.ssls[j];
    }
  }

  lemma SameReplaced(e: Endpoint, e': Endpoint)
    requires OnlyStoppedReplaced(e) && SslLast(e') && e'.ssls == e.ssls && e'.role == e.role
    ensures OnlyStoppedReplaced(e')
  {
  }

  lemma RequestReplaced(e: Endpoint, f: Frame)
    requires OnlyStoppedReplaced(e)
    ensures OnlyStoppedReplaced(AddRequest(e, f))
  {
    hide Announced;
    AddRequestFlows(e, f);
    var e' := AddRequest(e, f);
    if !SslDown(e) {
      PostAnnounced(e.ssls[e.ssl.value], Send(Load(Ssl, f)));
      SetReplaced(e, e', e.ssl.value, Post(e.ssls[e.ssl.value], Send(Load(Ssl, f))));
    } else if e.role == RemoteServer {
      RefuseAnnounced(e.ssls[e.ssl.value], Load(Ssl, f));
      SetReplaced(e, e', e.ssl.value, Refuse(e.ssls[e.ssl.value], Load(Ssl, f)));
    } else {
      DialReplaced(e, f);
    }
  }

  lemma RefuseAnnounced(r: Relay, b: Buf)
    requires Announced(r)
    ensures Announced(Refuse(r, b)) && (r.stopCalled ==> Refuse(r, b).stopCalled)
  {
  }

  lemma DialReplaced(e: Endpoint, f: Frame)
    requires OnlyStoppedReplaced(e) && e.role != RemoteServer && SslDown(e)
    ensures OnlyStoppedReplaced(AddRequest(e, f))
  {
    LocalRequest(e, f);
    AddRequestFlows(e, f);
    var e' := AddRequest(e, f);
    var n := |e.ssls|;
    forall k | 0 <= k < |e'.ssls|
      ensures Announced(e'.ssls[k]) && (k < n ==> e'.ssls[k].stopCalled)
    {
      if k < n {
        assert e'.ssls[k] == e'.ssls[..n][k];
        assert Announced(e.ssls[k]);
      } else {
        PostAnnounced(Fresh(Ssl, true), Send(Load(Ssl, f)));
      }
    }
  }

  lemma OwnReplaced(e: Endpoint, st: Endpoints.Step)
    requires Endpoints.Enabled(e, st) && OnlyStoppedReplaced(e) && SslLast(Endpoints.Do(e, st))
    ensures OnlyStoppedReplaced(Endpoints.Do(e, st))
  {
    hide Announced, OnlyStoppedReplaced;
    var e' := Endpoints.Do(e, st);
    ReplacedLast(e);
    match st
    case Request(i) =>
      SameReplaced(e, TakeRequest(e, i));
      RequestReplaced(TakeRequest(e, i), e.objs[i].outbox[0]);
    case SslStep(k, q) =>
      AnnouncedAt(e, k);
      StepAnnounced(e.ssls[k], q);
      SetReplaced(e, e', k, Apply(e.ssls[k], q));
    case AcceptUdp(src, data) =>
      var u := U.FromClient(e.udp, src);
      SameReplaced(e, e.(udp := u));
      RequestReplaced(e.(udp := u), Frame(U.SessionOf(u, src), DataUdp, data));
    case TimerTick(order) =>
      TickSsls(e, order);
      if e.ssl.Some? {
        var k := e.ssl.value;
        AnnouncedAt(e, k);
        DownAnnounced(e.ssls[k]);
        SetReplaced(e, e', k, TimeoutDown(e.ssls[k]));
      } else {
        SameReplaced(e, e');
      }
    case _ => SameReplaced(e, e');
  }

  lemma AnnouncedAt(e: Endpoint, k: nat)
    requires OnlyStoppedReplaced(e) && k < |e.ssls|
    ensures Announced(e.ssls[k])
  {
  }

  lemma HandlesReplaced(e: Endpoint, f: Frame)
    requires CanHandle(e, f) && OnlyStoppedReplaced(e) && SslLast(e) && SslLast(AddResponse(e, f))
    ensures OnlyStoppedReplaced(AddResponse(e, f))
  {
    hide Announced, OnlyStoppedReplaced, AddRequest, AddResponse;
    if FindsStopped(e, f) {
      var h := e.(handled := e.handled + [f], relays := e.relays - {f.session});
      SameReplaced(e, h);
      RequestReplaced(h, Frame(f.session, StopTcp, []));
      AnswersStopped(e, f);
    } else {
      NothingOffered(e, f);
      ResponseMoves(e, f);
      SameReplaced(e, AddResponse(e, f));
    }
  }

  lemma AnswersStopped(e: Endpoint, f: Frame)
    requires CanHandle(e, f) && SslOk(e) && FindsStopped(e, f)
    ensures AddResponse(e, f) ==
              AddRequest(e.(handled := e.handled + [f], relays := e.relays - {f.session}), Frame(f.session, StopTcp, []))
  {
    hide AddRequest;
  }

  lemma MoveReplaced(e: Endpoint, m: Move)
    requires CanMove(e, m) && OnlyStoppedReplaced(e)
    ensures OnlyStoppedReplaced(Moved(e, m))
  {
    hide Announced, OnlyStoppedReplaced;
    ReplacedLast(e);
    MoveFlows(e, m);
    match m
    case Own(st) => OwnReplaced(e, st);
    case Handles(f) => HandlesReplaced(e, f);
    case Hears(k) =>
      AnnouncedAt(e, k);
      ResetAnnounced(e.ssls[k]);
      SetReplaced(e, Moved(e, m), k, ResetTimeout(e.ssls[k]));
    case Breaks(k) =>
      AnnouncedAt(e, k);
      StepAnnounced(e.ssls[k], CallStop);
      SetReplaced(e, Moved(e, m), k, Apply(e.ssls[k], CallStop));
    case Waits =>
  }

  lemma ResetAnnounced(r: Relay)
    requires Announced(r)
    ensures Announced(ResetTimeout(r)) && (r.stopCalled ==> ResetTimeout(r).stopCalled)
  {
  }

  lemma ReplacedLast(e: Endpoint)
    requires OnlyStoppedReplaced(e)
    ensures SslLast(e)
  {
  }

  /** In every behaviour of an end: of its connections all but the current one
      have been told to stop. */
  lemma {:induction false} AlwaysOnlyStoppedReplaced(es: seq<Endpoint>, ms: seq<Move>, i: nat)
    requires EndBehaviour(es, ms) && NewEnd(es[0]) && i <= |ms|
    ensures OnlyStoppedReplaced(es[i])
    decreases i
  {
    hide CanMove, Moved;
    if i > 0 {
      AlwaysOnlyStoppedReplaced(es, ms, i - 1);
      MoveReplaced(es[i - 1], ms[i - 1]);
    }
  }

  // ------------------------------------------------------------------ relays

  /** The only difference is that object i has been given message m. */
  predicate GivenTo(e: Endpoint, e': Endpoint, i: nat, m: Message) {
    && i < |e.objs| && |e'.objs| == |e.objs| && e'.relays == e.relays
    && e'.objs[i].relay.inbox == e.objs[i].relay.inbox + [m]
    && (forall j | 0 <= j < |e.objs| && j != i :: e'.objs[j] == e.objs[j])
    && e'.ssls == e.ssls && e'.udp == e.udp
  }

  /** A new object took the session's entry, and nothing else has changed. */
  predicate NewFor(e: Endpoint, e': Endpoint, s: nat) {
    && |e'.objs| == |e.objs| + 1 && e'.objs[..|e.objs|] == e.objs
    && e'.objs[|e.objs|].session == s && e'.relays == e.relays[s := Some(|e.objs|)]
    && e'.ssls == e.ssls
  }

  /** DATA_TCP: its bytes are posted to the relay that has the entry. Without an
      entry nothing happens. */
  lemma DataIsGiven(e: Endpoint, f: Frame)
    requires CanHandle(e, f) && f.cmd == DataTcp && !FindsStopped(e, f)
    requires f.session in e.relays ==> e.relays[f.session].Some?
    ensures var e' := AddResponse(e, f);
            if f.session in e.relays then
              var v := e.relays[f.session].value;
              GivenTo(e, e', v, Send(Load(e.objs[v].relay.kind, f)))
              && (Tcp(e.objs[v]) ==> e'.objs[v].relay.inbox == e.objs[v].relay.inbox + [Send(Buf(f, f.data))])
            else e' == e.(handled := e'.handled)
  {
  }

  /** DATA_UDP at a remote end: the payload is posted to the session's relay if it
      has one that is not stopped, else to a new one, which is open and receives. */
  lemma DatagramIsGiven(e: Endpoint, f: Frame)
    requires CanHandle(e, f) && f.cmd == DataUdp && e.role == RemoteServer
    ensures var e' := AddResponse(e, f);
            var s := f.session;
            if s in e.relays && e.relays[s].Some? && e.objs[e.relays[s].value].relay.state != Stop then
              var v := e.relays[s].value;
              GivenTo(e, e', v, Send(Load(e.objs[v].relay.kind, f)))
              && (!Tcp(e.objs[v]) && e.objs[v].relay.kind == RawUdp ==>
                    e'.objs[v].relay.inbox == e.objs[v].relay.inbox + [Send(Buf(f, UdpPayload(f)))])
            else
              && NewFor(e, e', s)
              && var o := e'.objs[|e.objs|];
                 && o.relay.kind == RawUdp && o.relay.sock == Open && o.loop == Reading
                 && o.relay.inbox == [Send(Buf(f, UdpPayload(f)))]
  {
    var v := Lookup(e, f.session);
    if v.None? || e.objs[v.value].relay.state == Stop {
      var e' := AddResponse(e, f);
      assert e'.objs[..|e.objs|] == e.objs;
    } else {
    }
  }

  /** START_TCP with an address that parses: a new relay that is to dial it takes
      the entry; one that had it is told to stop. */
  lemma StartMakesRelay(e: Endpoint, f: Frame)
    requires CanHandle(e, f) && f.cmd == StartTcp && DestOf(f.data).Ok?
    ensures var e' := AddResponse(e, f);
            var n := |e.objs|;
            && |e'.objs| == n + 1 && e'.relays == e.relays[f.session := Some(n)] && e'.faulted == e.faulted
            && (forall v | f.session in e.relays && e.relays[f.session] == Some(v) ::
                  e'.objs[v].relay.stopCalled && e'.objs[v].relay.inbox == e.objs[v].relay.inbox + [Halt])
            && (forall i | 0 <= i < n && !(f.session in e.relays && e.relays[f.session] == Some(i)) ::
                  e'.objs[i] == e.objs[i])
            && var o := e'.objs[n];
               && Tcp(o) && o.session == f.session && o.dest == Some(DestOf(f.data).dest) && o.loop == NotStarted
               && o.relay.dials == (e.role == RemoteServer) && !o.relay.startDone && o.relay.inbox == []
               && !o.relay.stopCalled
  {
  }

  /** An accepted connection: it gets the next number and a relay whose socket is
      open; if the number has an entry already, the number is all that is used up. */
  lemma AcceptMakesRelay(e: Endpoint)
    requires e.role != RemoteServer
    ensures var e' := Endpoints.Do(e, AcceptTcp);
            var s := e.udp.session;
            && e'.udp == e.udp.(session := s + 1)
            && if s in e.relays then e'.objs == e.objs && e'.relays == e.relays
               else
                 && NewFor(e, e', s)
                 && var o := e'.objs[|e.objs|];
                    Tcp(o) && o.relay.sock == Open && !o.relay.dials && o.loop == NotStarted && o.outbox == []
  {
  }

  /** A dial that succeeds: the socket is open, a drain is about to run, and the
      relay reads; a local relay that spoke SOCKS has a reply to write. */
  lemma StartedReads(e: Endpoint, i: nat)
    requires Endpoints.Enabled(e, ObjStep(i, StartOk))
    ensures var o, o' := e.objs[i], Endpoints.Do(e, ObjStep(i, StartOk)).objs[i];
            && o'.relay.state == Init && o'.relay.startDone && o'.relay.spawned == o.relay.spawned + 1
            && (o.relay.dials ==> o'.relay.sock == Open)
            && (o.loop == NotStarted ==> o'.loop == Reading) && (o.loop != NotStarted ==> o'.loop == o.loop)
            && (o'.replying <==> o.replying || (e.role == LocalServer && Tcp(o)))
            && o'.outbox == o.outbox
  {
  }

  /** A local relay that knows its destination posts START_TCP with the address as
      it came, and reads from then on. */
  lemma StartIsPosted(e: Endpoint, i: nat, data: seq<byte>)
    requires Endpoints.Enabled(e, EmitStart(i, data))
    ensures var o, o' := e.objs[i], Endpoints.Do(e, EmitStart(i, data)).objs[i];
            && o'.outbox == o.outbox + [Frame(o.session, StartTcp, data)] && o'.loop == Reading
            && o'.dest == Some(DestOf(data).dest) && o'.relay == o.relay
  {
  }

  /** A datagram that a remote UDP relay receives: posted as DATA_UDP of its
      session, with a payload and an address that the other end reads back. */
  lemma DatagramIsPosted(e: Endpoint, i: nat, peer: A.SockAddr, stale: seq<byte>, data: seq<byte>)
    requires Endpoints.Enabled(e, RecvFrom(i, peer, stale, data)) && e.objs[i].session < Pow256(WORD)
    ensures var o, o' := e.objs[i], Endpoints.Do(e, RecvFrom(i, peer, stale, data)).objs[i];
            && |o'.outbox| == |o.outbox| + 1 && o'.outbox[..|o.outbox|] == o.outbox
            && var f := o'.outbox[|o.outbox|];
               && WellFormed(f) && f.cmd == DataUdp && f.session == o.session
               && UdpPayload(f) == data && A.DecodeAddr(f.data) == peer
  {
    DatagramRoundTrip(e.objs[i].session, peer, data, stale);
  }

  /** The reply is out: that is all. */
  lemma ReplyIsOut(e: Endpoint, i: nat)
    requires Endpoints.Enabled(e, ReplyEnds(i, true))
    ensures Endpoints.Do(e, ReplyEnds(i, true)) == SetObj(e, i, e.objs[i].(replying := false))
  {
  }

  // ------------------------------------------------------ who has a TCP relay

  /** A START_TCP of the session with an address that parses was handled. */
  ghost predicate WasStarted(fs: seq<Frame>, s: nat) {
    exists j | 0 <= j < |fs| ::
      fs[j].cmd == StartTcp && fs[j].session == s && |fs[j].data| <= READ_BUFFER_SIZE && DestOf(fs[j].data).Ok?
  }

  ghost predicate StartedExactly(e: Endpoint) {
    e.role == RemoteServer && forall s: nat :: NoTcp(e, s) <==> !WasStarted(e.handled, s)
  }

  lemma WasStartedMore(fs: seq<Frame>, f: Frame, s: nat)
    ensures WasStarted(fs + [f], s) <==>
              || WasStarted(fs, s)
              || (f.cmd == StartTcp && f.session == s && |f.data| <= READ_BUFFER_SIZE && DestOf(f.data).Ok?)
  {
    var g := fs + [f];
    if j :| 0 <= j < |fs| && fs[j].cmd == StartTcp && fs[j].session == s && |fs[j].data| <= READ_BUFFER_SIZE && DestOf(fs[j].data).Ok? {
      assert g[j] == fs[j];
    }
    assert g[|fs|] == f;
  }

  lemma NoTcpKept(e: Endpoint, e': Endpoint, s: nat)
    requires SameObjs(e, e') && |e'.objs| == |e.objs|
    ensures NoTcp(e', s) <==> NoTcp(e, s)
  {
    if NoTcp(e, s) {
      forall i | 0 <= i < |e'.objs|
        ensures Tcp(e'.objs[i]) ==> e'.objs[i].session != s
      {
        assert Tcp(e.objs[i]) ==> e.objs[i].session != s;
      }
    }
    if NoTcp(e', s) {
      forall i | 0 <= i < |e.objs|
        ensures Tcp(e.objs[i]) ==> e.objs[i].session != s
      {
        assert Tcp(e'.objs[i]) ==> e'.objs[i].session != s;
      }
    }
  }

  lemma NoTcpMore(e: Endpoint, e': Endpoint, s: nat)
    requires SameObjs(e, e') && |e'.objs| == |e.objs| + 1
    ensures NoTcp(e', s) <==>
              NoTcp(e, s) && !(Tcp(e'.objs[|e.objs|]) && e'.objs[|e.objs|].session == s)
  {
    if NoTcp(e, s) && !(Tcp(e'.objs[|e.objs|]) && e'.objs[|e.objs|].session == s) {
      forall i | 0 <= i < |e'.objs|
        ensures Tcp(e'.objs[i]) ==> e'.objs[i].session != s
      {
        if i < |e.objs| {
          assert Tcp(e.objs[i]) ==> e.objs[i].session != s;
        }
      }
    }
    if NoTcp(e', s) {
      forall i | 0 <= i < |e.objs|
        ensures Tcp(e.objs[i]) ==> e.objs[i].session != s
      {
        assert Tcp(e'.objs[i]) ==> e'.objs[i].session != s;
      }
    }
  }

  lemma OwnStarted(e: Endpoint, st: Endpoints.Step)
    requires StartedExactly(e) && Endpoints.Enabled(e, st)
    ensures StartedExactly(Endpoints.Do(e, st))
  {
    hide NoTcp, WasStarted, Endpoints.Do, Endpoints.Enabled;
    StepMoves(e, st);
    forall s: nat
      ensures NoTcp(Endpoints.Do(e, st), s) <==> NoTcp(e, s)
    {
      NoTcpKept(e, Endpoints.Do(e, st), s);
    }
  }

  lemma HandlesStarted(e: Endpoint, f: Frame)
    requires StartedExactly(e) && CanHandle(e, f)
    ensures StartedExactly(AddResponse(e, f))
  {
    hide NoTcp, WasStarted, AddResponse, CanHandle;
    var e' := AddResponse(e, f);
    ResponseMoves(e, f);
    NewRelayExact(e, f);
    forall s: nat
      ensures NoTcp(e', s) <==> !WasStarted(e'.handled, s)
    {
      WasStartedMore(e.handled, f, s);
      if |e'.objs| == |e.objs| {
        NoTcpKept(e, e', s);
      } else {
        NoTcpMore(e, e', s);
      }
    }
  }

  lemma NewRelayExact(e: Endpoint, f: Frame)
    requires CanHandle(e, f)
    ensures var e' := AddResponse(e, f);
            (|e'.objs| == |e.objs| + 1 && Tcp(e'.objs[|e.objs|])) <==> (f.cmd == StartTcp && DestOf(f.data).Ok?)
    ensures |AddResponse(e, f).objs| <= |e.objs| + 1
  {
    ResponseMoves(e, f);
    match f.cmd
    case StartTcp => if DestOf(f.data).Ok? {} else {}
    case _ =>
  }

  lemma MoveStarted(e: Endpoint, m: Move)
    requires StartedExactly(e) && CanMove(e, m)
    ensures StartedExactly(Moved(e, m))
  {
    hide NoTcp, WasStarted;
    match m
    case Own(st) => OwnStarted(e, st);
    case Handles(f) => HandlesStarted(e, f);
    case Hears(k) => SslSetStarted(e, k, ResetTimeout(e.ssls[k]));
    case Breaks(k) => SslSetStarted(e, k, Apply(e.ssls[k], CallStop));
    case Waits =>
  }

  lemma SslSetStarted(e: Endpoint, k: nat, r: Relay)
    requires StartedExactly(e) && k < |e.ssls|
    ensures StartedExactly(SetSsl(e, k, r))
  {
    hide NoTcp, WasStarted;
    forall s: nat
      ensures NoTcp(SetSsl(e, k, r), s) <==> NoTcp(e, s)
    {
      NoTcpKept(e, SetSsl(e, k, r), s);
    }
  }

  /** In every behaviour of a remote end, numbers shared or not: it has had a TCP
      relay for exactly the sessions whose START_TCP it has handled with an
      address that parses. */
  lemma {:induction false} AlwaysStartedExactly(es: seq<Endpoint>, ms: seq<Move>, i: nat)
    requires EndBehaviour(es, ms) && es[0] == NewRemote() && i <= |ms|
    ensures StartedExactly(es[i])
    decreases i
  {
    hide CanMove, Moved;
    if i > 0 {
      AlwaysStartedExactly(es, ms, i - 1);
      MoveStarted(es[i - 1], ms[i - 1]);
    }
  }
}
