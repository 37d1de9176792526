/** The shape of both ends and of the streams between them in every behaviour of
    the system: nothing is asked but that numbers fit in 32 bits. */
module SystemShape {
  import opened Bytes
  import opened RelayData
  import opened RelayQueue
  import opened SslReader
  import opened Endpoints
  import opened EndpointInv
  import opened EndpointSteps
  import opened Sessions
  import opened EndMoves
  import opened Shape
  import U = UdpTables

  /** The reader's bytes come from frames that the sender accepted. */
  ghost predicate Reads(rd: Reader, r: Relay, done: nat) {
    ReaderInv(rd, r.out, r.accepted) && done <= |rd.delivered|
  }

  ghost predicate ConnShape(k: Conn, r: Relay) {
    && Shaped(k.remote) && Remote(k.remote) && |k.remote.ssls| == 1
    && Reads(k.up, r, k.upDone) && Reads(k.down, k.remote.ssls[0], k.downDone)
  }

  ghost predicate SysShape(w: World) {
    && Shaped(w.local) && !Remote(w.local) && |w.conns| == |w.local.ssls|
    && forall c | 0 <= c < |w.conns| :: ConnShape(w.conns[c], w.local.ssls[c])
  }

  lemma SslOf(e: Endpoint, k: nat)
    requires Shaped(e) && k < |e.ssls|
    ensures SslShape(e.ssls[k], Remote(e)) && Core(e.ssls[k])
    ensures Sendable(e.ssls[k].accepted) && e.ssls[k].out <= Flatten(e.ssls[k].accepted)
  {
    assert SslShape(e.ssls[k], Remote(e));
    OutPrefix(e.ssls[k]);
  }

  lemma ReadsGrow(rd: Reader, r: Relay, r': Relay, done: nat)
    requires Reads(rd, r, done) && Longer(r, r') && Sendable(r'.accepted) && r'.out <= Flatten(r'.accepted)
    ensures Reads(rd, r', done)
  {
    hide ReaderInv;
    ReaderInvGrows(rd, r.out, r.accepted, r'.out, r'.accepted);
  }

  // ------------------------------------------------------------- the beginning

  lemma NewShape()
    ensures Shaped(NewRemote()) && Shaped(NewLocal(LocalServer)) && Shaped(NewLocal(LocalTransparent))
  {
    FreshShape(Ssl, false);
  }

  lemma NewReads(r: Relay)
    requires Sendable(r.accepted) && r.out == []
    ensures Reads(NEW_READER, r, 0)
  {
    assert Flatten(r.accepted[..0]) == [];
    assert Frames(r.accepted[..0]) == [];
  }

  lemma NewConnShape(r: Relay)
    requires SslShape(r, false) && r.out == []
    ensures ConnShape(NEW_CONN, r)
  {
    hide Shaped, SslShape;
    assert Sendable(r.accepted) by { SentOk(r, false); }
    NewShape();
    NewReads(r);
    NewReads(NewRemote().ssls[0]);
  }

  lemma SentOk(r: Relay, remote: bool)
    requires SslShape(r, remote)
    ensures Sendable(r.accepted)
  {
  }

  lemma InitialShape(role: Role)
    requires role != RemoteServer
    ensures SysShape(Initial(role))
  {
    hide Shaped;
    NewShape();
  }

  // ------------------------------------------------------------------ the ends

  lemma UpShape(k: Conn, r: Relay, r': Relay)
    requires ConnShape(k, r) && Longer(r, r') && Sendable(r'.accepted) && r'.out <= Flatten(r'.accepted)
    ensures ConnShape(k, r')
  {
    hide Reads, Shaped;
    ReadsGrow(k.up, r, r', k.upDone);
  }

  /** The local end moves; a connection it dials is fresh. */
  lemma LocalMovesShape(w: World, e: Endpoint, conns: seq<Conn>)
    requires SysShape(w) && Shaped(e) && Moves(w.local, e) && |conns| == |e.ssls|
    requires forall c | 0 <= c < |conns| :: if c < |w.conns| then ConnShape(conns[c], w.local.ssls[c]) else conns[c] == NEW_CONN
    ensures SysShape(World(e, conns))
  {
    hide ConnShape, Shaped;
    forall c | 0 <= c < |conns|
      ensures ConnShape(conns[c], e.ssls[c])
    {
      SslOf(e, c);
      if c < |w.conns| {
        assert Longer(w.local.ssls[c], e.ssls[c]);
        UpShape(conns[c], w.local.ssls[c], e.ssls[c]);
      } else {
        NewConnShape(e.ssls[c]);
      }
    }
  }

  lemma LocalStepShape(w: World, s: Endpoints.Step)
    requires SysShape(w) && NoWrap(w) && Endpoints.Enabled(w.local, s)
    ensures SysShape(Sessions.Do(w, AtLocal(s)))
  {
    hide ConnShape, Shaped, Endpoints.Enabled, Endpoints.Do;
    var e := Endpoints.Do(w.local, s);
    StepShape(w.local, s);
    StepMoves(w.local, s);
    LocalMovesShape(w, e, Dialled(e, w.conns));
  }

  /** A remote end moves. */
  lemma RemoteMovesShape(k: Conn, r: Relay, e: Endpoint)
    requires ConnShape(k, r) && Shaped(e) && Moves(k.remote, e)
    ensures ConnShape(k.(remote := e), r)
  {
    hide Reads, Shaped;
    SslOf(e, 0);
    assert Longer(k.remote.ssls[0], e.ssls[0]);
    ReadsGrow(k.down, k.remote.ssls[0], e.ssls[0], k.downDone);
  }

  lemma OneConnShape(w: World, c: nat, k: Conn)
    requires SysShape(w) && c < |w.conns| && ConnShape(k, w.local.ssls[c])
    ensures SysShape(SetConn(w, c, k))
  {
    hide ConnShape, Shaped;
  }

  lemma RemoteFits(e: Endpoint, s: Endpoints.Step)
    requires Remote(e) && Endpoints.Enabled(e, s)
    ensures Fits(e, s)
  {
  }

  lemma RemoteStepShape(w: World, c: nat, s: Endpoints.Step)
    requires SysShape(w) && c < |w.conns| && Endpoints.Enabled(w.conns[c].remote, s)
    ensures SysShape(Sessions.Do(w, AtRemote(c, s)))
  {
    hide Reads, Shaped, Endpoints.Enabled, Endpoints.Do;
    var k := w.conns[c];
    assert ConnShape(k, w.local.ssls[c]);
    RemoteFits(k.remote, s);
    StepShape(k.remote, s);
    StepMoves(k.remote, s);
    RemoteMovesShape(k, w.local.ssls[c], Endpoints.Do(k.remote, s));
    OneConnShape(w, c, k.(remote := Endpoints.Do(k.remote, s)));
  }

  // ------------------------------------------------------------------ reading

  lemma ReaderEffectShape(r: Relay, before: Reader, after: Reader, remote: bool)
    requires SslShape(r, remote) && r.startDone
    ensures var r' := ReaderEffect(r, before, after);
            SslShape(r', remote) && Longer(r, r') && Longer(r', r)
  {
    hide Core;
    if after.phase.Ended? {
      StepKeepsCore(r, CallStop);
    } else {
      CountersIrrelevantCore(r, TIMEOUT);
    }
  }

  lemma ReadMoreReads(rd: Reader, r: Relay, done: nat, chunk: ReadStep)
    requires Reads(rd, r, done) && CanRead(rd, r.out, chunk)
    ensures Reads(Read(rd, r.out, chunk), r, done)
  {
    hide ReaderInv;
    ReadKeepsInv(rd, r.out, r.accepted, chunk);
    ReadDelivers(rd, r.out, chunk);
  }

  lemma UpReadShape(w: World, c: nat, chunk: ReadStep)
    requires SysShape(w) && Sessions.Enabled(w, UpRead(c, chunk))
    ensures SysShape(Sessions.Do(w, UpRead(c, chunk)))
  {
    hide Reads, Shaped;
    var k := w.conns[c];
    assert ConnShape(k, w.local.ssls[c]);
    var up := Read(k.up, w.local.ssls[c].out, chunk);
    ReadMoreReads(k.up, w.local.ssls[c], k.upDone, chunk);
    var r := ReaderEffect(k.remote.ssls[0], k.up, up);
    SslOf(k.remote, 0);
    ReaderEffectShape(k.remote.ssls[0], k.up, up, true);
    SetSslShape(k.remote, 0, r);
    SslOf(SetSsl(k.remote, 0, r), 0);
    ReadsGrow(k.down, k.remote.ssls[0], r, k.downDone);
    OneConnShape(w, c, k.(up := up, remote := SetSsl(k.remote, 0, r)));
  }

  lemma DownReadShape(w: World, c: nat, chunk: ReadStep)
    requires SysShape(w) && Sessions.Enabled(w, DownRead(c, chunk))
    ensures SysShape(Sessions.Do(w, DownRead(c, chunk)))
  {
    hide Reads, Shaped;
    var k := w.conns[c];
    assert ConnShape(k, w.local.ssls[c]);
    var down := Read(k.down, k.remote.ssls[0].out, chunk);
    ReadMoreReads(k.down, k.remote.ssls[0], k.downDone, chunk);
    var r := ReaderEffect(w.local.ssls[c], k.down, down);
    SslOf(w.local, c);
    ReaderEffectShape(w.local.ssls[c], k.down, down, false);
    SetSslShape(w.local, c, r);
    var e := SetSsl(w.local, c, r);
    SslOf(e, c);
    DownReadRest(w, c, k.(down := down), e);
  }

  lemma DownReadRest(w: World, c: nat, k: Conn, e: Endpoint)
    requires SysShape(w) && c < |w.conns| && ConnShape(k, w.local.ssls[c]) && Shaped(e)
    requires c < |e.ssls| && e == SetSsl(w.local, c, e.ssls[c]) && Longer(w.local.ssls[c], e.ssls[c])
    ensures SysShape(SetConn(w.(local := e), c, k))
  {
    hide ConnShape, Shaped, Longer;
    SslOf(e, c);
    UpShape(k, w.local.ssls[c], e.ssls[c]);
    var w' := SetConn(w.(local := e), c, k);
    forall d | 0 <= d < |w'.conns|
      ensures ConnShape(w'.conns[d], w'.local.ssls[d])
    {
      assert d != c ==> w'.conns[d] == w.conns[d] && w'.local.ssls[d] == w.local.ssls[d];
    }
  }

  // ----------------------------------------------------------------- handling

  /** The next frame was accepted by the sender. */
  lemma NextFrame(rd: Reader, r: Relay, done: nat, remote: bool)
    requires Reads(rd, r, done) && SslShape(r, remote) && done < |rd.delivered|
    ensures Postable(rd.delivered[done], remote)
  {
    assert rd.delivered[done] == r.accepted[done].frame;
  }

  lemma UpHandleShape(w: World, c: nat)
    requires SysShape(w) && Sessions.Enabled(w, UpHandle(c))
    ensures SysShape(Sessions.Do(w, UpHandle(c)))
  {
    hide ReaderInv, Shaped;
    var k := w.conns[c];
    var f := k.up.delivered[k.upDone];
    assert ConnShape(k, w.local.ssls[c]);
    SslOf(w.local, c);
    NextFrame(k.up, w.local.ssls[c], k.upDone, false);
    AddResponseShape(k.remote, f);
    ResponseMoves(k.remote, f);
    var e := AddResponse(k.remote, f);
    RemoteMovesShape(k, w.local.ssls[c], e);
    OneConnShape(w, c, k.(upDone := k.upDone + 1, remote := e));
  }

  lemma DownNext(w: World, c: nat)
    requires SysShape(w) && Sessions.Enabled(w, DownHandle(c))
    ensures var k := w.conns[c];
            && Postable(k.down.delivered[k.downDone], true)
            && ConnShape(k.(downDone := k.downDone + 1), w.local.ssls[c])
  {
    hide ReaderInv, Shaped;
    var k := w.conns[c];
    assert ConnShape(k, w.local.ssls[c]);
    SslOf(k.remote, 0);
    NextFrame(k.down, k.remote.ssls[0], k.downDone, true);
  }

  lemma DownHandleShape(w: World, c: nat)
    requires SysShape(w) && Sessions.Enabled(w, DownHandle(c))
    ensures SysShape(Sessions.Do(w, DownHandle(c)))
  {
    hide ConnShape, Shaped, AddResponse;
    var k := w.conns[c];
    var f := k.down.delivered[k.downDone];
    DownNext(w, c);
    AddResponseShape(w.local, f);
    ResponseMoves(w.local, f);
    var e := AddResponse(w.local, f);
    LocalMovesShape(w, e, Dialled(e, w.conns[c := k.(downDone := k.downDone + 1)]));
  }

  // --------------------------------------------------------------- behaviours

  lemma StepKeepsShape(w: World, st: Sessions.Step)
    requires SysShape(w) && NoWrap(w) && Sessions.Enabled(w, st)
    ensures SysShape(Sessions.Do(w, st))
  {
    hide SysShape;
    match st
    case AtLocal(s) => LocalStepShape(w, s);
    case AtRemote(c, s) => RemoteStepShape(w, c, s);
    case UpRead(c, chunk) => UpReadShape(w, c, chunk);
    case DownRead(c, chunk) => DownReadShape(w, c, chunk);
    case UpHandle(c) => UpHandleShape(w, c);
    case DownHandle(c) => DownHandleShape(w, c);
  }

  /** The counter only grows. */
  lemma NumbersGrow(w: World, st: Sessions.Step)
    requires Sessions.Enabled(w, st)
    ensures w.local.udp.session <= Sessions.Do(w, st).local.udp.session
  {
    match st
    case AtLocal(s) => StepMoves(w.local, s);
    case DownHandle(c) => ResponseMoves(w.local, w.conns[c].down.delivered[w.conns[c].downDone]);
    case _ =>
  }

  lemma NextShape(w: World, st: Sessions.Step, w': World)
    requires Next(w, st, w')
    ensures NoWrap(w') ==> NoWrap(w)
    ensures SysShape(w) && NoWrap(w) ==> SysShape(w')
  {
    hide Sessions.Enabled, Sessions.Do, SysShape;
    NumbersGrow(w, st);
    if SysShape(w) && NoWrap(w) {
      StepKeepsShape(w, st);
    }
  }

  lemma {:induction false} NoWrapBefore(ws: seq<World>, sts: seq<Sessions.Step>, i: nat)
    requires Behaviour(ws, sts) && i <= |sts| && NoWrap(ws[|sts|])
    ensures NoWrap(ws[i])
    decreases |sts| - i
  {
    hide Next, NoWrap;
    if i < |sts| {
      NoWrapBefore(ws, sts, i + 1);
      NextShape(ws[i], sts[i], ws[i + 1]);
    }
  }

  lemma {:induction false} ShapeAt(ws: seq<World>, sts: seq<Sessions.Step>, i: nat)
    requires Behaviour(ws, sts) && i <= |sts| && SysShape(ws[0]) && NoWrap(ws[|sts|])
    ensures SysShape(ws[i])
    decreases i
  {
    hide Next, NoWrap, SysShape;
    if i > 0 {
      ShapeAt(ws, sts, i - 1);
      NoWrapBefore(ws, sts, i - 1);
      NextShape(ws[i - 1], sts[i - 1], ws[i]);
    }
  }

  lemma {:induction false} AlwaysShaped(role: Role, ws: seq<World>, sts: seq<Sessions.Step>, i: nat)
    requires Behaviour(ws, sts) && role != RemoteServer && ws[0] == Initial(role)
    requires NoWrap(ws[|sts|]) && i <= |sts|
    ensures SysShape(ws[i])
  {
    hide Next, NoWrap, SysShape;
    InitialShape(role);
    ShapeAt(ws, sts, i);
  }

  // ------------------------------------------------------------- what it means

  predicate InRange(f: Frame) {
    |f.data| <= READ_BUFFER_SIZE && (f.cmd == DataUdp ==> |f.data| >= ADDRESS_SIZE)
  }

  /** At one end: nothing faulted, no null entry is left, what is not in the table
      was stopped, every frame posted, sent or handled has a length that the
      receiver accepts, a UDP frame at least the 19 bytes its address takes. */
  ghost predicate EndOk(e: Endpoint) {
    && !e.faulted
    && (forall s | s in e.relays :: e.relays[s].Some?)
    && (forall i | 0 <= i < |e.objs| :: InTable(e, i) || e.objs[i].relay.stopCalled)
    && (forall j | 0 <= j < |e.handled| :: InRange(e.handled[j]))
    && (forall k, j | 0 <= k < |e.ssls| && 0 <= j < |e.ssls[k].offered| :: InRange(e.ssls[k].offered[j].frame))
    && (forall i, j | 0 <= i < |e.objs| && 0 <= j < |e.objs[i].outbox| :: InRange(e.objs[i].outbox[j]))
  }

  /** A header that has arrived in one piece passes the reader's length guard. */
  predicate GuardPasses(rd: Reader, wire: seq<byte>) {
    rd.phase.InHeader? && rd.pos + HEADER_SIZE <= |wire| ==>
      DecodeHeader(wire[rd.pos..rd.pos + HEADER_SIZE]).len <= READ_BUFFER_SIZE
  }

  ghost predicate EndsOk(w: World) {
    && EndOk(w.local)
    && forall c | 0 <= c < |w.conns| ::
         && EndOk(w.conns[c].remote) && c < |w.local.ssls| && |w.conns[c].remote.ssls| == 1
         && GuardPasses(w.conns[c].up, w.local.ssls[c].out)
         && GuardPasses(w.conns[c].down, w.conns[c].remote.ssls[0].out)
  }

  /** No leak: a relay that is not in _relays any more has been told to stop. */
  lemma NoLiveRelayLeaks(e: Endpoint, i: nat)
    requires Shaped(e) && i < |e.objs|
    ensures InTable(e, i) || e.objs[i].relay.stopCalled
  {
    assert ObjShape(e.objs[i], InTable(e, i), Remote(e));
  }

  lemma EndIsOk(e: Endpoint)
    requires Shaped(e)
    ensures EndOk(e)
  {
    forall i | 0 <= i < |e.objs|
      ensures InTable(e, i) || e.objs[i].relay.stopCalled
      ensures forall j | 0 <= j < |e.objs[i].outbox| :: InRange(e.objs[i].outbox[j])
    {
      assert ObjShape(e.objs[i], InTable(e, i), Remote(e));
    }
    forall k, j | 0 <= k < |e.ssls| && 0 <= j < |e.ssls[k].offered|
      ensures InRange(e.ssls[k].offered[j].frame)
    {
      assert SslShape(e.ssls[k], Remote(e));
    }
  }

  lemma GuardIsPassed(rd: Reader, r: Relay, done: nat)
    requires Reads(rd, r, done)
    ensures GuardPasses(rd, r.out)
  {
    if rd.phase.InHeader? && rd.pos + HEADER_SIZE <= |r.out| {
      ReadKeepsInv(rd, r.out, r.accepted, Chunk(HEADER_SIZE));
    }
  }

  lemma EndsAreOk(w: World)
    requires SysShape(w)
    ensures EndsOk(w)
  {
    hide Shaped, EndOk, Reads, GuardPasses;
    EndIsOk(w.local);
    forall c | 0 <= c < |w.conns|
      ensures EndOk(w.conns[c].remote) && |w.conns[c].remote.ssls| == 1
      ensures GuardPasses(w.conns[c].up, w.local.ssls[c].out)
      ensures GuardPasses(w.conns[c].down, w.conns[c].remote.ssls[0].out)
    {
      var k := w.conns[c];
      assert ConnShape(k, w.local.ssls[c]);
      EndIsOk(k.remote);
      GuardIsPassed(k.up, w.local.ssls[c], k.upDone);
      GuardIsPassed(k.down, k.remote.ssls[0], k.downDone);
    }
  }

  /** In every state of every behaviour, also one in which TCP and UDP sessions
      share numbers or a connection is revived after dropping frames. */
  lemma {:induction false} AlwaysEndsOk(role: Role, ws: seq<World>, sts: seq<Sessions.Step>, i: nat)
    requires Behaviour(ws, sts) && role != RemoteServer && ws[0] == Initial(role)
    requires NoWrap(ws[|sts|]) && i <= |sts|
    ensures EndsOk(ws[i])
  {
    hide Next, NoWrap, SysShape, EndsOk;
    AlwaysShaped(role, ws, sts, i);
    EndsAreOk(ws[i]);
  }
}
