/** The end of a session, across the system: a relay that is over at one end is
    taken out at the other, once what it posted has been handled there. */
module SessionClose {
  import opened Bytes
  import opened RelayData
  import opened RelayQueue
  import opened SslReader
  import opened Streams
  import opened Endpoints
  import opened EndpointInv
  import opened EndpointSteps
  import opened Sessions
  import opened EndMoves
  import opened SystemRuns
  import opened EndProjections
  import opened SessionEnd

  predicate IsStop(f: Frame, s: nat) {
    f.cmd == StopTcp && f.session == s
  }

  /** A STOP_TCP of the session after its START_TCP. */
  ghost predicate Stopped(fs: seq<Frame>, s: nat) {
    exists p, q | 0 <= p < q < |fs| :: fs[p].cmd == StartTcp && fs[p].session == s && IsStop(fs[q], s)
  }

  ghost predicate GotStop(fs: seq<Frame>, s: nat) {
    exists q | 0 <= q < |fs| :: IsStop(fs[q], s)
  }

  // ------------------------------------------------------------ a remote end

  /** A session that was started and stopped has no entry. */
  ghost predicate RemoteStops(e: Endpoint) {
    forall s: nat :: Stopped(e.handled, s) && !NoTcp(e, s) ==> s !in e.relays
  }

  lemma StoppedBefore(fs: seq<Frame>, f: Frame, s: nat)
    requires Stopped(fs + [f], s)
    ensures Stopped(fs, s) || (IsStop(f, s) && Stream(fs, s) != [])
  {
    var g := fs + [f];
    var p, q :| 0 <= p < q < |g| && g[p].cmd == StartTcp && g[p].session == s && IsStop(g[q], s);
    assert fs[p] == g[p];
    if q < |fs| {
      assert fs[q] == g[q];
    } else {
      InStream(fs, fs[p]);
    }
  }

  lemma StoppedStarted(fs: seq<Frame>, s: nat)
    requires Stopped(fs, s)
    ensures Stream(fs, s) != []
  {
    var p, q :| 0 <= p < q < |fs| && fs[p].cmd == StartTcp && fs[p].session == s && IsStop(fs[q], s);
    InStream(fs, fs[p]);
  }

  lemma RemoteOwnStops(e: Endpoint, st: Endpoints.Step)
    requires RemoteStops(e) && e.role == RemoteServer && Endpoints.Enabled(e, st)
    ensures RemoteStops(Endpoints.Do(e, st))
  {
    hide Endpoints.Enabled, Endpoints.Do, Stopped, NoTcp;
    var e' := Endpoints.Do(e, st);
    StepMoves(e, st);
    forall s: nat | Stopped(e'.handled, s) && !NoTcp(e', s)
      ensures s !in e'.relays
    {
      SameNoTcp(e, e', s);
      NeverAccepts(e, st);
      OwnOut(e, st, s);
    }
  }

  lemma NeverAccepts(e: Endpoint, st: Endpoints.Step)
    requires e.role == RemoteServer && Endpoints.Enabled(e, st)
    ensures st != AcceptTcp
  {
  }

  lemma SameNoTcp(e: Endpoint, e': Endpoint, s: nat)
    requires SameObjs(e, e') && |e'.objs| == |e.objs| && !NoTcp(e', s)
    ensures !NoTcp(e, s)
  {
    var i :| 0 <= i < |e'.objs| && Tcp(e'.objs[i]) && e'.objs[i].session == s;
    assert Tcp(e.objs[i]) && e.objs[i].session == s;
  }

  /** The frames that would use the number again do not come. */
  lemma RemoteHandlesStops(e: Endpoint, f: Frame)
    requires RemoteStops(e) && EInv(e, []) && e.role == RemoteServer && Expected(e, f) && CanHandle(e, f)
    ensures RemoteStops(AddResponse(e, f))
  {
    hide EInv, Stopped, NoTcp, AddResponse, CanHandle;
    var e' := AddResponse(e, f);
    ResponseMoves(e, f);
    forall s: nat | Stopped(e'.handled, s) && !NoTcp(e', s)
      ensures s !in e'.relays
    {
      StoppedBefore(e.handled, f, s);
      if IsStop(f, s) {
        StopTakesOut(e, f);
      } else {
        StoppedStarted(e.handled, s);
        OlderTcp(e, e', f, s);
        HandlesOut(e, f, s);
      }
    }
  }

  lemma OlderTcp(e: Endpoint, e': Endpoint, f: Frame, s: nat)
    requires SameObjs(e, e') && NewTcpOnly(e, e', f) && !NoTcp(e', s) && !(f.cmd == StartTcp && f.session == s)
    ensures !NoTcp(e, s)
  {
    var i :| 0 <= i < |e'.objs| && Tcp(e'.objs[i]) && e'.objs[i].session == s;
    assert i < |e.objs|;
    assert Tcp(e.objs[i]) && e.objs[i].session == s;
  }

  lemma StopTakesOut(e: Endpoint, f: Frame)
    requires EInv(e, []) && f.cmd == StopTcp && CanHandle(e, f)
    ensures f.session !in AddResponse(e, f).relays
  {
    if f.session in e.relays {
      StopArrives(e, f);
    }
  }

  // ------------------------------------------------------------- the local end

  /** A session that was stopped has no entry; its number was given out. */
  ghost predicate LocalStops(e: Endpoint) {
    && (forall i | 0 <= i < |e.objs| :: GotStop(e.handled, e.objs[i].session) ==> e.objs[i].session !in e.relays)
    && forall s: nat :: GotStop(e.handled, s) ==> !NoTcp(e, s)
  }

  lemma TcpStays(e: Endpoint, e': Endpoint, s: nat)
    requires SameObjs(e, e') && !NoTcp(e, s)
    ensures !NoTcp(e', s)
  {
    var i :| 0 <= i < |e.objs| && Tcp(e.objs[i]) && e.objs[i].session == s;
    assert Tcp(e'.objs[i]) && e'.objs[i].session == s;
  }

  lemma StoppedIsOlder(e: Endpoint, s: nat)
    requires EInv(e, []) && e.role != RemoteServer && !NoTcp(e, s)
    ensures s < e.udp.session
  {
    var i :| 0 <= i < |e.objs| && Tcp(e.objs[i]) && e.objs[i].session == s;
    EInvNumbers(e, []);
  }

  lemma LocalOwnStops(e: Endpoint, st: Endpoints.Step)
    requires LocalStops(e) && EInv(e, []) && e.role != RemoteServer && Endpoints.Enabled(e, st)
    ensures LocalStops(Endpoints.Do(e, st))
  {
    hide EInv, Endpoints.Enabled, Endpoints.Do, GotStop, NoTcp;
    var e' := Endpoints.Do(e, st);
    StepMoves(e, st);
    forall s: nat | GotStop(e'.handled, s)
      ensures !NoTcp(e', s)
    {
      TcpStays(e, e', s);
    }
    forall i | 0 <= i < |e'.objs| && GotStop(e'.handled, e'.objs[i].session)
      ensures e'.objs[i].session !in e'.relays
    {
      var s := e'.objs[i].session;
      StoppedIsOlder(e, s);
      if i < |e.objs| {
        OwnOut(e, st, s);
      } else {
        NewIsAccepted(e, st, i);
      }
    }
  }

  lemma NewIsAccepted(e: Endpoint, st: Endpoints.Step, i: nat)
    requires Endpoints.Enabled(e, st) && e.role != RemoteServer && |e.objs| <= i < |Endpoints.Do(e, st).objs|
    ensures Endpoints.Do(e, st).objs[i].session == e.udp.session
  {
    if st.AcceptTcp? {
    } else if st.AcceptUdp? {
      AcceptUdpObjs(e, st);
    } else {
      OthersAddNothing(e, st);
    }
  }

  lemma AcceptUdpObjs(e: Endpoint, st: Endpoints.Step)
    requires st.AcceptUdp? && Endpoints.Enabled(e, st) && e.role != RemoteServer
    ensures |Endpoints.Do(e, st).objs| == |e.objs|
  {
  }

  lemma OthersAddNothing(e: Endpoint, st: Endpoints.Step)
    requires Endpoints.Enabled(e, st) && !st.AcceptTcp? && !st.AcceptUdp?
    ensures |Endpoints.Do(e, st).objs| == |e.objs|
  {
    match st
    case Request(i) => AddRequestMoves(TakeRequest(e, i), e.objs[i].outbox[0]);
    case TimerTick(order) => TimerMoves(e, order);
    case _ =>
  }

  lemma GotStopBefore(fs: seq<Frame>, f: Frame, s: nat)
    requires GotStop(fs + [f], s)
    ensures GotStop(fs, s) || IsStop(f, s)
  {
    var g := fs + [f];
    var q :| 0 <= q < |g| && IsStop(g[q], s);
    if q < |fs| {
      assert fs[q] == g[q];
    }
  }

  lemma LocalHandlesStops(e: Endpoint, f: Frame)
    requires LocalStops(e) && EInv(e, []) && e.role != RemoteServer && Expected(e, f) && CanHandle(e, f)
    requires f.cmd == StopTcp ==> !NoTcp(e, f.session)
    ensures LocalStops(AddResponse(e, f))
  {
    hide EInv, GotStop, NoTcp, AddResponse, CanHandle;
    var e' := AddResponse(e, f);
    ResponseMoves(e, f);
    forall s: nat | GotStop(e'.handled, s)
      ensures !NoTcp(e', s)
    {
      GotStopBefore(e.handled, f, s);
      TcpStays(e, e', s);
    }
    forall i | 0 <= i < |e'.objs| && GotStop(e'.handled, e'.objs[i].session)
      ensures e'.objs[i].session !in e'.relays
    {
      var s := e'.objs[i].session;
      GotStopBefore(e.handled, f, s);
      if IsStop(f, s) {
        StopTakesOut(e, f);
      } else {
        LocalAddsNothing(e, f);
        HandlesOut(e, f, s);
      }
    }
  }

  lemma LocalAddsNothing(e: Endpoint, f: Frame)
    requires CanHandle(e, f) && e.role != RemoteServer && f.cmd != StartTcp
    ensures |AddResponse(e, f).objs| == |e.objs|
  {
    match f.cmd
    case DataTcp => DataMoves(e.(handled := e.handled + [f]), f);
    case _ =>
  }

  // ---------------------------------------------------------------- the system

  /** What is offered by the connection's remote end. */
  function FromRemote(k: Conn): seq<Frame> {
    Outgoing(k.remote.ssls)
  }

  /** STOP_TCP only comes back for sessions of the local end; what was handled
      was delivered. */
  ghost predicate BackOk(local: Endpoint, k: Conn) {
    && (forall s: nat :: GotStop(FromRemote(k), s) ==> !NoTcp(local, s))
    && k.downDone <= |k.down.delivered| && (forall j | 0 <= j < k.downDone :: k.down.delivered[j] in local.handled)
  }

  ghost predicate Stops(w: World) {
    && LocalStops(w.local)
    && (forall c | 0 <= c < |w.conns| :: RemoteStops(w.conns[c].remote) && BackOk(w.local, w.conns[c]))
  }

  lemma NewConnStops(local: Endpoint)
    ensures RemoteStops(NEW_CONN.remote) && BackOk(local, NEW_CONN)
  {
    assert Frames(NewRemote().ssls[0].offered) == [];
    assert NewRemote().ssls[..0] == [];
  }

  lemma BackGrows(local: Endpoint, local': Endpoint, k: Conn)
    requires BackOk(local, k) && SameObjs(local, local') && local.handled <= local'.handled
    ensures BackOk(local', k)
  {
    hide NoTcp, GotStop;
    forall s: nat | GotStop(FromRemote(k), s)
      ensures !NoTcp(local', s)
    {
      TcpStays(local, local', s);
    }
    forall j | 0 <= j < k.downDone
      ensures k.down.delivered[j] in local'.handled
    {
      var i :| 0 <= i < |local.handled| && local.handled[i] == k.down.delivered[j];
      assert local'.handled[i] == k.down.delivered[j];
    }
  }

  lemma DialledStops(w: World, e: Endpoint)
    requires Stops(w) && LocalStops(e) && SameObjs(w.local, e) && w.local.handled <= e.handled
    ensures Stops(World(e, Dialled(e, w.conns)))
  {
    hide LocalStops, RemoteStops, BackOk;
    var conns := Dialled(e, w.conns);
    NewConnStops(e);
    forall c | 0 <= c < |conns|
      ensures RemoteStops(conns[c].remote) && BackOk(e, conns[c])
    {
      if c < |w.conns| {
        assert conns[c] == w.conns[c];
        BackGrows(w.local, e, w.conns[c]);
      }
    }
  }

  lemma OneConnStops(w: World, c: nat, k: Conn)
    requires Stops(w) && c < |w.conns| && RemoteStops(k.remote) && BackOk(w.local, k)
    ensures Stops(SetConn(w, c, k))
  {
    hide LocalStops, RemoteStops, BackOk;
    var w' := SetConn(w, c, k);
    forall d | 0 <= d < |w'.conns|
      ensures RemoteStops(w'.conns[d].remote) && BackOk(w'.local, w'.conns[d])
    {
      assert d != c ==> w'.conns[d] == w.conns[d];
    }
  }

  /** What an own step of a remote end offers: the outbox of one of its relays. */
  lemma OwnOffers(e: Endpoint, st: Endpoints.Step, s: nat)
    requires e.role == RemoteServer && EInv(e, []) && SslLast(e) && Endpoints.Enabled(e, st)
    requires GotStop(Outgoing(Endpoints.Do(e, st).ssls), s)
    ensures GotStop(Outgoing(e.ssls), s) || !NoTcp(e, s)
  {
    hide EInv, GotStop, NoTcp, Outgoing, OutboxOk;
    match st
    case Request(i) =>
      var f := e.objs[i].outbox[0];
      AddRequestFlows(TakeRequest(e, i), f);
      GotStopBefore(Outgoing(e.ssls), f, s);
      if IsStop(f, s) {
        StopFromTcp(e, i);
      }
    case SslStep(k, q) =>
      StepFrame(e.ssls[k], q);
      SetLast(e.ssls, k, Apply(e.ssls[k], q));
    case TimerTick(order) =>
      TickSsls(e, order);
      if e.ssl.Some? {
        SetLast(e.ssls, e.ssl.value, TimeoutDown(e.ssls[e.ssl.value]));
      }
    case _ =>
  }

  lemma StopFromTcp(e: Endpoint, i: nat)
    requires EInv(e, []) && i < |e.objs| && e.objs[i].outbox != [] && e.objs[i].outbox[0].cmd == StopTcp
    ensures !NoTcp(e, e.objs[i].outbox[0].session)
  {
    assert ObjOk(e, i, []);
    assert Tcp(e.objs[i]) && e.objs[i].session == e.objs[i].outbox[0].session;
  }

  lemma RemoteStepStops(w: World, c: nat, st: Endpoints.Step)
    requires WInv(w) && Stops(w) && c < |w.conns| && Endpoints.Enabled(w.conns[c].remote, st)
    ensures Stops(Sessions.Do(w, AtRemote(c, st)))
  {
    hide EInv, Stopped, NoTcp, GotStop, Endpoints.Enabled, Endpoints.Do, LocalStops, RemoteStops, ReaderInv, LocalHandled;
    var k := w.conns[c];
    var e := k.remote;
    assert ConnOk(w, c) && RemoteStops(e) && BackOk(w.local, k);
    RemoteOwnStops(e, st);
    EInvLast(e);
    forall s: nat | GotStop(Outgoing(Endpoints.Do(e, st).ssls), s)
      ensures !NoTcp(w.local, s)
    {
      OwnOffers(e, st, s);
      if GotStop(Outgoing(e.ssls), s) {
        assert GotStop(FromRemote(k), s);
      } else {
        RemoteTcpIsLocal(w, c, s);
      }
    }
    OneConnStops(w, c, k.(remote := Endpoints.Do(e, st)));
  }

  lemma EInvLast(e: Endpoint)
    requires EInv(e, []) && (e.role == RemoteServer ==> e.ssls != [])
    ensures SslLast(e)
  {
  }

  lemma RemoteTcpIsLocal(w: World, c: nat, s: nat)
    requires WInv(w) && c < |w.conns| && !NoTcp(w.conns[c].remote, s)
    ensures !NoTcp(w.local, s)
  {
    HostedIsLocalOr(w, c, s);
  }

  lemma SslIrrelevant(e: Endpoint, k: nat, r: Relay)
    requires k < |e.ssls|
    ensures RemoteStops(e) ==> RemoteStops(SetSsl(e, k, r))
    ensures LocalStops(e) ==> LocalStops(SetSsl(e, k, r))
  {
    hide Stopped, GotStop;
    var e' := SetSsl(e, k, r);
    forall s: nat
      ensures NoTcp(e', s) <==> NoTcp(e, s)
    {
    }
  }

  lemma UpReadStops(w: World, c: nat, chunk: ReadStep)
    requires Stops(w) && Sessions.Enabled(w, UpRead(c, chunk))
    ensures Stops(Sessions.Do(w, UpRead(c, chunk)))
  {
    hide LocalStops, Stopped, NoTcp, GotStop, Outgoing, Read, CanRead;
    var k := w.conns[c];
    var up := Read(k.up, w.local.ssls[c].out, chunk);
    var r := ReaderEffect(k.remote.ssls[0], k.up, up);
    assert RemoteStops(k.remote) && BackOk(w.local, k);
    SetLast(k.remote.ssls, 0, r);
    var e := SetSsl(k.remote, 0, r);
    SslIrrelevant(k.remote, 0, r);
    OneConnStops(w, c, k.(up := up, remote := e));
  }

  lemma DownReadStops(w: World, c: nat, chunk: ReadStep)
    requires Stops(w) && Sessions.Enabled(w, DownRead(c, chunk))
    ensures Stops(Sessions.Do(w, DownRead(c, chunk)))
  {
    hide RemoteStops, Stopped, NoTcp, GotStop, Outgoing, CanRead;
    var k := w.conns[c];
    var down := Read(k.down, k.remote.ssls[0].out, chunk);
    var r := ReaderEffect(w.local.ssls[c], k.down, down);
    var e := SetSsl(w.local, c, r);
    assert RemoteStops(k.remote) && BackOk(w.local, k);
    SslIrrelevant(w.local, c, r);
    ReadKeepsDelivered(k.down, k.remote.ssls[0].out, chunk);
    SameDials(w, e);
    OneConnStops(w.(local := e), c, k.(down := down));
  }

  lemma ReadKeepsDelivered(rd: Reader, wire: seq<byte>, chunk: ReadStep)
    requires CanRead(rd, wire, chunk)
    ensures rd.delivered <= Read(rd, wire, chunk).delivered
  {
  }

  /** The local end moves without dialling. */
  lemma SameDials(w: World, e: Endpoint)
    requires Stops(w) && LocalStops(e) && SameObjs(w.local, e) && e.handled == w.local.handled
    ensures Stops(w.(local := e))
  {
    hide LocalStops, RemoteStops, BackOk;
    forall c | 0 <= c < |w.conns|
      ensures BackOk(e, w.conns[c])
    {
      BackGrows(w.local, e, w.conns[c]);
    }
  }

  lemma LocalStepStops(w: World, st: Endpoints.Step)
    requires WInv(w) && Stops(w) && Endpoints.Enabled(w.local, st)
    ensures Stops(Sessions.Do(w, AtLocal(st)))
  {
    hide EInv, LocalStops, Endpoints.Enabled, Endpoints.Do, RemoteStops, BackOk, ConnOk, LocalHandled;
    LocalOwnStops(w.local, st);
    StepMoves(w.local, st);
    DialledStops(w, Endpoints.Do(w.local, st));
  }

  /** A remote end that handles a frame offers at most a STOP_TCP for DATA_TCP. */
  lemma HandlesOffers(e: Endpoint, f: Frame, s: nat)
    requires CanHandle(e, f) && SslLast(e) && GotStop(Outgoing(AddResponse(e, f).ssls), s)
    ensures GotStop(Outgoing(e.ssls), s) || (f.cmd == DataTcp && f.session == s)
  {
    hide GotStop, Outgoing;
    if FindsStopped(e, f) {
      StoppedIsAnswered(e, f);
      GotStopBefore(Outgoing(e.ssls), Frame(f.session, StopTcp, []), s);
    } else {
      NothingOffered(e, f);
    }
  }

  lemma UpHandleStops(w: World, c: nat)
    requires WInv(w) && Hypothesis(w) && Stops(w) && Sessions.Enabled(w, UpHandle(c))
    ensures Stops(Sessions.Do(w, UpHandle(c)))
  {
    hide EInv, Stopped, NoTcp, GotStop, LocalStops, RemoteStops, ReaderInv, LocalHandled, Hypothesis, AddResponse, CanHandle, Expected;
    var k := w.conns[c];
    var e := k.remote;
    var f := k.up.delivered[k.upDone];
    assert ConnOk(w, c) && RemoteStops(e) && BackOk(w.local, k);
    UpExpected(w, c);
    RemoteHandlesStops(e, f);
    EInvLast(e);
    forall s: nat | GotStop(Outgoing(AddResponse(e, f).ssls), s)
      ensures !NoTcp(w.local, s)
    {
      HandlesOffers(e, f, s);
      if GotStop(Outgoing(e.ssls), s) {
        assert GotStop(FromRemote(k), s);
      } else {
        DataIsLocal(w, c, s);
      }
    }
    OneConnStops(w, c, k.(upDone := k.upDone + 1, remote := AddResponse(e, f)));
  }

  lemma DataIsLocal(w: World, c: nat, s: nat)
    requires WInv(w) && c < |w.conns| && w.conns[c].upDone < |w.conns[c].up.delivered|
    requires w.conns[c].up.delivered[w.conns[c].upDone].cmd == DataTcp
    requires w.conns[c].up.delivered[w.conns[c].upDone].session == s
    ensures !NoTcp(w.local, s)
  {
    hide EInv, NoTcp, ReaderInv, LocalHandled;
    var f := w.conns[c].up.delivered[w.conns[c].upDone];
    NextUp(w, c);
    var sent := Frames(w.local.ssls[c].offered);
    assert (w.conns[c].remote.handled + [f])[|w.conns[c].remote.handled|] == f;
    assert f in sent;
    InStream(sent, f);
    StreamHasRelay(w.local, c, s);
  }

  lemma DownHandleStops(w: World, c: nat)
    requires WInv(w) && Stops(w) && Sessions.Enabled(w, DownHandle(c))
    ensures Stops(Sessions.Do(w, DownHandle(c)))
  {
    hide EInv, NoTcp, GotStop, LocalStops, RemoteStops, ConnOk, LocalHandled, AddResponse, CanHandle, Expected;
    var k := w.conns[c];
    var f := k.down.delivered[k.downDone];
    var e := AddResponse(w.local, f);
    assert RemoteStops(k.remote) && BackOk(w.local, k);
    DownExpected(w, c, f);
    if f.cmd == StopTcp {
      StopCameBack(w, c, f);
    }
    LocalHandlesStops(w.local, f);
    ResponseMoves(w.local, f);
    var w1 := World(e, w.conns);
    SameObjsGrow(w, e, f);
    HandledOneMore(w.local, e, k, f);
    OneConnStops(w1, c, k.(downDone := k.downDone + 1));
    DialledStops(SetConn(w1, c, k.(downDone := k.downDone + 1)), e);
  }

  lemma SameObjsGrow(w: World, e: Endpoint, f: Frame)
    requires Stops(w) && LocalStops(e) && SameObjs(w.local, e) && e.handled == w.local.handled + [f]
    ensures Stops(World(e, w.conns))
  {
    hide LocalStops, RemoteStops, BackOk;
    forall c | 0 <= c < |w.conns|
      ensures BackOk(e, w.conns[c])
    {
      BackGrows(w.local, e, w.conns[c]);
    }
  }

  lemma HandledOneMore(local: Endpoint, e: Endpoint, k: Conn, f: Frame)
    requires BackOk(local, k) && SameObjs(local, e) && e.handled == local.handled + [f]
    requires k.downDone < |k.down.delivered| && k.down.delivered[k.downDone] == f
    ensures BackOk(e, k.(downDone := k.downDone + 1))
  {
    hide GotStop, NoTcp;
    BackGrows(local, e, k);
    assert e.handled[|local.handled|] == f;
  }

  lemma StopCameBack(w: World, c: nat, f: Frame)
    requires WInv(w) && c < |w.conns| && w.conns[c].downDone < |w.conns[c].down.delivered|
    requires BackOk(w.local, w.conns[c]) && f == w.conns[c].down.delivered[w.conns[c].downDone] && f.cmd == StopTcp
    ensures !NoTcp(w.local, f.session)
  {
    hide EInv, NoTcp, LocalHandled;
    var k := w.conns[c];
    NextDown(w, c);
    OneConnection(k.remote);
    var j :| 0 <= j < |FromRemote(k)| && FromRemote(k)[j] == f;
    assert IsStop(FromRemote(k)[j], f.session);
  }

  lemma OneConnection(e: Endpoint)
    requires |e.ssls| == 1
    ensures Outgoing(e.ssls) == Frames(e.ssls[0].offered)
  {
    assert e.ssls[..0] == [];
    assert Outgoing(e.ssls[..0]) == [];
  }

  lemma StepStops(w: World, st: Sessions.Step)
    requires WInv(w) && Hypothesis(w) && Stops(w) && Sessions.Enabled(w, st)
    ensures Stops(Sessions.Do(w, st))
  {
    hide WInv, Hypothesis, Stops;
    match st
    case AtLocal(s) => LocalStepStops(w, s);
    case AtRemote(c, s) => RemoteStepStops(w, c, s);
    case UpRead(c, chunk) => UpReadStops(w, c, chunk);
    case DownRead(c, chunk) => DownReadStops(w, c, chunk);
    case UpHandle(c) => UpHandleStops(w, c);
    case DownHandle(c) => DownHandleStops(w, c);
  }

  // ------------------------------------------------ what every end has posted

  ghost predicate EndsSent(w: World) {
    AllSent(w.local) && forall c | 0 <= c < |w.conns| :: AllSent(w.conns[c].remote)
  }

  lemma StepSent(w: World, st: Sessions.Step)
    requires EndsSent(w) && Sessions.Enabled(w, st)
    ensures EndsSent(Sessions.Do(w, st))
  {
    hide AllSent, CanMove, Moved, Sessions.Enabled, LocalMove, RemoteMove;
    var w' := Sessions.Do(w, st);
    LocalMoves(w, st);
    MoveSent(w.local, LocalMove(w, st));
    forall c | 0 <= c < |w'.conns|
      ensures AllSent(w'.conns[c].remote)
    {
      if c < |w.conns| {
        RemoteMoves(w, st, c);
        MoveSent(w.conns[c].remote, RemoteMove(w, st, c));
      } else {
        NewConnections(w, st, c);
        NewSentAll(NewRemote());
      }
    }
  }

  lemma NewSentAll(e: Endpoint)
    requires NewEnd(e)
    ensures AllSent(e)
  {
  }

  ghost predicate Ending(w: World) {
    EndsSent(w) && Stops(w)
  }

  lemma InitialEnding(role: Role)
    requires role != RemoteServer
    ensures Ending(Initial(role))
  {
    NewSentAll(NewLocal(role));
  }

  lemma NextEnding(w: World, st: Sessions.Step, w': World)
    requires Next(w, st, w') && WInv(w) && Hypothesis(w) && Ending(w)
    ensures Ending(w')
  {
    hide Sessions.Enabled, Sessions.Do, Hypothesis, WInv, EndsSent, Stops;
    StepSent(w, st);
    StepStops(w, st);
  }

  lemma {:induction false} EndingAt(role: Role, ws: seq<World>, sts: seq<Sessions.Step>, i: nat)
    requires CleanBehaviour(ws, sts) && role != RemoteServer && ws[0] == Initial(role)
    requires Hypothesis(ws[|sts|]) && i <= |sts|
    ensures Ending(ws[i])
    decreases i
  {
    hide Next, Hypothesis, WInv, Ending;
    if i == 0 {
      InitialEnding(role);
    } else {
      EndingAt(role, ws, sts, i - 1);
      Always(role, ws, sts, i - 1);
      HeldBefore(ws, sts, i - 1);
      NextEnding(ws[i - 1], sts[i - 1], ws[i]);
    }
  }

  // ------------------------------------------------------ from end to end

  lemma {:induction false} SubPair(a: seq<Frame>, b: seq<Frame>, x: nat, y: nat) returns (p: nat, q: nat)
    requires Sub(a, b) && x < y < |a|
    ensures p < q < |b| && b[p] == a[x] && b[q] == a[y]
    decreases |b|
  {
    if Sub(a, b[..|b| - 1]) {
      p, q := SubPair(a, b[..|b| - 1], x, y);
    } else if y < |a| - 1 {
      p, q := SubPair(a[..|a| - 1], b[..|b| - 1], x, y);
    } else {
      p := SubAt(a[..|a| - 1], b[..|b| - 1], x);
      q := |b| - 1;
    }
  }

  lemma {:induction false} SubAt(a: seq<Frame>, b: seq<Frame>, x: nat) returns (p: nat)
    requires Sub(a, b) && x < |a|
    ensures p < |b| && b[p] == a[x]
    decreases |b|
  {
    if Sub(a, b[..|b| - 1]) {
      p := SubAt(a, b[..|b| - 1], x);
    } else if x < |a| - 1 {
      p := SubAt(a[..|a| - 1], b[..|b| - 1], x);
    } else {
      p := |b| - 1;
    }
  }

  lemma {:induction false} OfFilter(p: Frame -> bool, fs: seq<Frame>)
    ensures forall f | f in Filter(p, fs) :: f in fs && p(f)
  {
    if fs != [] {
      OfFilter(p, fs[1..]);
    }
  }

  /** Frames behind those of connections before c were offered to c or later. */
  lemma {:induction false} OfferedTo(ssls: seq<Relay>, c: nat, q: nat) returns (d: nat)
    requires c < |ssls| && |Outgoing(ssls[..c])| <= q < |Outgoing(ssls)|
    ensures c <= d < |ssls| && Outgoing(ssls)[q] in Frames(ssls[d].offered)
    decreases |ssls|
  {
    var n := |ssls| - 1;
    if c < n && q < |Outgoing(ssls[..n])| {
      assert ssls[..n][..c] == ssls[..c];
      d := OfferedTo(ssls[..n], c, q);
    } else {
      d := n;
    }
  }

  /** A pair of frames that both went to connection c. */
  lemma BothAt(ssls: seq<Relay>, c: nat, p: nat, q: nat)
    requires c < |ssls| && |Outgoing(ssls[..c])| <= p < q < |Outgoing(ssls)|
    requires forall d | c < d < |ssls| :: Outgoing(ssls)[q] !in Frames(ssls[d].offered)
    ensures var n := |Outgoing(ssls[..c])|;
            && q - n < |ssls[c].offered|
            && Frames(ssls[c].offered)[p - n] == Outgoing(ssls)[p] && Frames(ssls[c].offered)[q - n] == Outgoing(ssls)[q]
  {
    var n := |Outgoing(ssls[..c])|;
    OutgoingAt(ssls, c);
    assert ssls[..c + 1][..c] == ssls[..c];
    if q - n >= |ssls[c].offered| && c + 1 < |ssls| {
      var d := OfferedTo(ssls, c + 1, q);
    } else {
      assert c + 1 == |ssls| ==> ssls[..c + 1] == ssls;
      assert (Outgoing(ssls[..c]) + Frames(ssls[c].offered))[p] == Outgoing(ssls)[p];
      assert (Outgoing(ssls[..c]) + Frames(ssls[c].offered))[q] == Outgoing(ssls)[q];
    }
  }

  /** The START_TCP and the STOP_TCP of a relay that is over. */
  lemma StartAndStop(o: Obj, gone: seq<Frame>) returns (p: nat, q: nat)
    requires Sent(o, gone) && Tcp(o) && o.loop == Over && o.outbox == []
    requires o.emitted != [] && o.emitted[0].cmd == StartTcp
    ensures p < q < |gone| && gone[p].cmd == StartTcp && gone[p].session == o.session
    ensures gone[q] == Frame(o.session, StopTcp, [])
  {
    hide Sub;
    var s := o.session;
    var taken: seq<Frame> :| Sub(taken, gone) && PostedOk(o, taken + o.outbox);
    assert taken + o.outbox == taken;
    OfFilter(f => OfSession(s, f), taken);
    assert o.emitted[0] in Stream(taken, s);
    var x :| 0 <= x < |taken| && taken[x] == o.emitted[0];
    var j :| 0 <= j < |taken| && taken[j] == Frame(s, StopTcp, []);
    assert x == 0;
    p, q := SubPair(taken, gone, 0, j);
  }

  lemma NoStartBefore(ssls: seq<Relay>, c: nat, s: nat, p: nat)
    requires c < |ssls| && Stream(Outgoing(ssls[..c]), s) == [] && p < |Outgoing(ssls)|
    requires Outgoing(ssls)[p].cmd == StartTcp && Outgoing(ssls)[p].session == s
    ensures p >= |Outgoing(ssls[..c])|
  {
    OutgoingAt(ssls, c);
    var before := Outgoing(ssls[..c]);
    if p < |before| {
      assert before[p] == Outgoing(ssls)[p];
      InStream(before, before[p]);
    }
  }

  /** Where the START_TCP of a hosted session is. */
  lemma StartOnConnection(w: World, c: nat, l: nat)
    requires WInv(w) && c < |w.conns| && l < |w.local.objs| && Tcp(w.local.objs[l])
    requires Hosts(w.conns[c], w.local.objs[l].session)
    ensures c < |w.local.ssls| && Stream(Outgoing(w.local.ssls[..c]), w.local.objs[l].session) == []
    ensures w.local.objs[l].emitted != [] && w.local.objs[l].emitted[0].cmd == StartTcp
  {
    hide Outgoing, ReaderInv, LocalHandled, ConnOk, RelayOk;
    var s := w.local.objs[l].session;
    HostCarriesStart(w, c, s);
    StartIsFirst(w.local, c, s, 0);
    StreamsAddUp(w.local, l, c);
    EmittedShape(w.local, l);
  }

  /** The STOP_TCP of a local relay that is over, on the connection that hosts
      its session. */
  lemma StopOnConnection(w: World, c: nat, l: nat)
    requires WInv(w) && EndsSent(w) && c < |w.conns| && l < |w.local.objs|
    requires w.local.objs[l].loop == Over && w.local.objs[l].outbox == [] && Tcp(w.local.objs[l])
    requires Hosts(w.conns[c], w.local.objs[l].session)
    requires forall d | c < d < |w.local.ssls| ::
               Frame(w.local.objs[l].session, StopTcp, []) !in Frames(w.local.ssls[d].offered)
    ensures c < |w.local.ssls| && Stopped(Frames(w.local.ssls[c].offered), w.local.objs[l].session)
  {
    hide Outgoing, Sent, WInv;
    var o := w.local.objs[l];
    var s := o.session;
    var ssls := w.local.ssls;
    StartOnConnection(w, c, l);
    var p, q := StartAndStop(o, Outgoing(ssls));
    NoStartBefore(ssls, c, s, p);
    BothAt(ssls, c, p, q);
    var n := |Outgoing(ssls[..c])|;
    var sent := Frames(ssls[c].offered);
    assert sent[p - n].cmd == StartTcp && sent[p - n].session == s && IsStop(sent[q - n], s);
  }

  /** EInv: what is not in the table was told to stop. */
  lemma NoEntryIsOut(e: Endpoint, s: nat, i: nat)
    requires EInv(e, []) && i < |e.objs| && e.objs[i].session == s && s !in e.relays
    ensures IsOut(e, s, i)
  {
    assert ObjOk(e, i, []);
  }

  /** A local TCP relay that is over, with nothing left in its outbox: once the
      connection that hosts its session has been handled, the remote relay is out
      of the table and stopped. (A STOP_TCP that went to a connection dialled later
      is not seen by this remote end.) */
  lemma LocalEndReachesRemote(role: Role, ws: seq<World>, sts: seq<Sessions.Step>, n: nat, c: nat, i: nat, l: nat)
    requires CleanBehaviour(ws, sts) && role != RemoteServer && ws[0] == Initial(role)
    requires Hypothesis(ws[|sts|]) && n <= |sts|
    requires c < |ws[n].conns| && c < |ws[n].local.ssls| && i < |ws[n].conns[c].remote.objs| && l < |ws[n].local.objs|
    requires Tcp(ws[n].conns[c].remote.objs[i]) && Tcp(ws[n].local.objs[l])
    requires ws[n].conns[c].remote.objs[i].session == ws[n].local.objs[l].session
    requires ws[n].local.objs[l].loop == Over && ws[n].local.objs[l].outbox == []
    requires forall d | c < d < |ws[n].local.ssls| ::
               Frame(ws[n].local.objs[l].session, StopTcp, []) !in Frames(ws[n].local.ssls[d].offered)
    requires ws[n].conns[c].upDone == |ws[n].local.ssls[c].offered|
    ensures IsOut(ws[n].conns[c].remote, ws[n].local.objs[l].session, i)
  {
    hide Next, Hypothesis, WInv, Ending;
    Always(role, ws, sts, n);
    EndingAt(role, ws, sts, n);
    LocalEndArrived(ws[n], c, i, l);
  }

  lemma LocalEndArrived(w: World, c: nat, i: nat, l: nat)
    requires WInv(w) && Ending(w)
    requires c < |w.conns| && i < |w.conns[c].remote.objs| && l < |w.local.objs|
    requires Tcp(w.conns[c].remote.objs[i]) && Tcp(w.local.objs[l])
    requires w.conns[c].remote.objs[i].session == w.local.objs[l].session
    requires w.local.objs[l].loop == Over && w.local.objs[l].outbox == []
    requires forall d | c < d < |w.local.ssls| ::
               Frame(w.local.objs[l].session, StopTcp, []) !in Frames(w.local.ssls[d].offered)
    requires w.conns[c].upDone == |w.local.ssls[c].offered|
    ensures IsOut(w.conns[c].remote, w.local.objs[l].session, i)
  {
    hide EInv, ReaderInv, LocalHandled, AllSent, Stopped, LocalStops, BackOk;
    var e := w.conns[c].remote;
    var s := w.local.objs[l].session;
    assert ConnOk(w, c) && Hosts(w.conns[c], s);
    StopOnConnection(w, c, l);
    HandledPrefix(w, c);
    assert e.handled == Frames(w.local.ssls[c].offered);
    assert RemoteStops(e) && !NoTcp(e, s);
    NoEntryIsOut(e, s, i);
  }

  /** The same the other way round. */
  lemma RemoteEndReachesLocal(role: Role, ws: seq<World>, sts: seq<Sessions.Step>, n: nat, c: nat, i: nat, l: nat)
    requires CleanBehaviour(ws, sts) && role != RemoteServer && ws[0] == Initial(role)
    requires Hypothesis(ws[|sts|]) && n <= |sts|
    requires c < |ws[n].conns| && i < |ws[n].conns[c].remote.objs| && l < |ws[n].local.objs|
    requires Tcp(ws[n].conns[c].remote.objs[i])
    requires ws[n].conns[c].remote.objs[i].session == ws[n].local.objs[l].session
    requires ws[n].conns[c].remote.objs[i].loop == Over && ws[n].conns[c].remote.objs[i].outbox == []
    requires ws[n].conns[c].remote.ssls != [] && ws[n].conns[c].downDone == |ws[n].conns[c].remote.ssls[0].offered|
    ensures IsOut(ws[n].local, ws[n].local.objs[l].session, l)
  {
    hide Next, Hypothesis, WInv, Ending;
    Always(role, ws, sts, n);
    EndingAt(role, ws, sts, n);
    RemoteEndArrived(ws[n], c, i, l);
  }

  lemma StopPosted(o: Obj, gone: seq<Frame>) returns (q: nat)
    requires Sent(o, gone) && Tcp(o) && o.loop == Over && o.outbox == []
    ensures q < |gone| && gone[q] == Frame(o.session, StopTcp, [])
  {
    hide Sub;
    var taken: seq<Frame> :| Sub(taken, gone) && PostedOk(o, taken + o.outbox);
    assert taken + o.outbox == taken;
    var j :| 0 <= j < |taken| && taken[j] == Frame(o.session, StopTcp, []);
    q := SubAt(taken, gone, j);
  }

  lemma RemoteEndArrived(w: World, c: nat, i: nat, l: nat)
    requires WInv(w) && Ending(w)
    requires c < |w.conns| && i < |w.conns[c].remote.objs| && l < |w.local.objs|
    requires Tcp(w.conns[c].remote.objs[i])
    requires w.conns[c].remote.objs[i].session == w.local.objs[l].session
    requires w.conns[c].remote.objs[i].loop == Over && w.conns[c].remote.objs[i].outbox == []
    requires w.conns[c].remote.ssls != [] && w.conns[c].downDone == |w.conns[c].remote.ssls[0].offered|
    ensures IsOut(w.local, w.local.objs[l].session, l)
  {
    hide EInv, ReaderInv, LocalHandled, Sent, RemoteStops;
    var k := w.conns[c];
    var s := w.local.objs[l].session;
    assert ConnOk(w, c) && AllSent(k.remote) && BackOk(w.local, k);
    OneConnection(k.remote);
    var q := StopPosted(k.remote.objs[i], FromRemote(k));
    HandledPrefix(w, c);
    assert k.down.delivered[q] == FromRemote(k)[q];
    var j :| 0 <= j < |w.local.handled| && w.local.handled[j] == k.down.delivered[q];
    assert IsStop(w.local.handled[j], s);
    NoEntryIsOut(w.local, s, l);
  }

  /** Whatever a STOP_TCP was sent for: once a remote end has handled one behind
      the session's START_TCP, and as soon as the local end has handled one, the
      session's relays there are out of the table and stopped, for good. */
  lemma StopCloses(role: Role, ws: seq<World>, sts: seq<Sessions.Step>, n: nat)
    requires CleanBehaviour(ws, sts) && role != RemoteServer && ws[0] == Initial(role)
    requires Hypothesis(ws[|sts|]) && n <= |sts|
    ensures forall l | 0 <= l < |ws[n].local.objs| :: GotStop(ws[n].local.handled, ws[n].local.objs[l].session) ==>
              IsOut(ws[n].local, ws[n].local.objs[l].session, l)
    ensures forall c, i | 0 <= c < |ws[n].conns| && 0 <= i < |ws[n].conns[c].remote.objs| ::
              Tcp(ws[n].conns[c].remote.objs[i]) && Stopped(ws[n].conns[c].remote.handled, ws[n].conns[c].remote.objs[i].session) ==>
                IsOut(ws[n].conns[c].remote, ws[n].conns[c].remote.objs[i].session, i)
  {
    hide Next, Hypothesis, EInv, GotStop, Stopped, Tcp, IsOut, EndsSent, LocalHandled, ReaderInv;
    Always(role, ws, sts, n);
    EndingAt(role, ws, sts, n);
    var w := ws[n];
    forall l | 0 <= l < |w.local.objs| && GotStop(w.local.handled, w.local.objs[l].session)
      ensures IsOut(w.local, w.local.objs[l].session, l)
    {
      NoEntryIsOut(w.local, w.local.objs[l].session, l);
    }
    forall c, i | 0 <= c < |w.conns| && 0 <= i < |w.conns[c].remote.objs|
                  && Tcp(w.conns[c].remote.objs[i]) && Stopped(w.conns[c].remote.handled, w.conns[c].remote.objs[i].session)
      ensures IsOut(w.conns[c].remote, w.conns[c].remote.objs[i].session, i)
    {
      assert ConnOk(w, c) && RemoteStops(w.conns[c].remote);
      NoEntryIsOut(w.conns[c].remote, w.conns[c].remote.objs[i].session, i);
    }
  }
}
