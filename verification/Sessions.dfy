/** The whole system: one local end, and for every TLS connection it has ever
    dialled the remote end that serves it, with the byte streams in between. */
module Sessions {
  import opened Bytes
  import opened RelayData
  import opened RelayQueue
  import opened SslReader
  import opened Streams
  import opened Endpoints
  import opened EndpointInv
  import opened EndpointSteps
  import opened EndpointStrands
  import A = Addresses

  /** A TLS connection: its remote end and the two read loops. The frames a read
      loop has delivered wait for the manager's strand; `upDone` and `downDone`
      of them have been handled. */
  datatype Conn = Conn(remote: Endpoint, up: Reader, upDone: nat, down: Reader, downDone: nat)

  /** conns[k] belongs to local.ssls[k]. */
  datatype World = World(local: Endpoint, conns: seq<Conn>)

  const NEW_CONN := Conn(NewRemote(), NEW_READER, 0, NEW_READER, 0)

  function Initial(role: Role): World {
    World(NewLocal(role), [])
  }

  datatype Step =
    | AtLocal(st: Endpoints.Step)
    | AtRemote(c: nat, st: Endpoints.Step)
    | UpRead(c: nat, chunk: ReadStep)      // the remote end reads from the connection
    | DownRead(c: nat, chunk: ReadStep)
    | UpHandle(c: nat)                     // the remote manager handles the next frame
    | DownHandle(c: nat)

  ghost predicate Enabled(w: World, st: Step)
  {
    match st
    case AtLocal(s) => Endpoints.Enabled(w.local, s)
    case AtRemote(c, s) => c < |w.conns| && Endpoints.Enabled(w.conns[c].remote, s)
    case UpRead(c, chunk) =>
      && c < |w.conns| && c < |w.local.ssls| && |w.conns[c].remote.ssls| == 1
      && w.conns[c].remote.ssls[0].startDone && CanRead(w.conns[c].up, w.local.ssls[c].out, chunk)
    case DownRead(c, chunk) =>
      && c < |w.conns| && c < |w.local.ssls| && |w.conns[c].remote.ssls| == 1
      && w.local.ssls[c].startDone && CanRead(w.conns[c].down, w.conns[c].remote.ssls[0].out, chunk)
    case UpHandle(c) =>
      && c < |w.conns| && w.conns[c].upDone < |w.conns[c].up.delivered|
      && CanHandle(w.conns[c].remote, w.conns[c].up.delivered[w.conns[c].upDone])
    case DownHandle(c) =>
      && c < |w.conns| && w.conns[c].downDone < |w.conns[c].down.delivered|
      && CanHandle(w.local, w.conns[c].down.delivered[w.conns[c].downDone])
  }

  /** The connection's relay after its read loop has moved: a read loop that ends
      stops it, a frame resets its idle counter. */
  function ReaderEffect(r: Relay, before: Reader, after: Reader): Relay {
    if after.phase.Ended? then r.(stops := r.stops + 1, stopCalled := true)
    else if after.delivered != before.delivered then ResetTimeout(r)
    else r
  }

  /** A freshly dialled connection meets a freshly accepted one. */
  function Dialled(local: Endpoint, conns: seq<Conn>): seq<Conn> {
    if |local.ssls| > |conns| then conns + [NEW_CONN] else conns
  }

  function SetConn(w: World, c: nat, k: Conn): World
    requires c < |w.conns|
  {
    w.(conns := w.conns[c := k])
  }

  ghost function Do(w: World, st: Step): World
    requires Enabled(w, st)
  {
    match st
    case AtLocal(s) =>
      var e := Endpoints.Do(w.local, s);
      World(e, Dialled(e, w.conns))
    case AtRemote(c, s) =>
      SetConn(w, c, w.conns[c].(remote := Endpoints.Do(w.conns[c].remote, s)))
    case UpRead(c, chunk) =>
      var k := w.conns[c];
      var up := Read(k.up, w.local.ssls[c].out, chunk);
      SetConn(w, c, k.(up := up, remote := SetSsl(k.remote, 0, ReaderEffect(k.remote.ssls[0], k.up, up))))
    case DownRead(c, chunk) =>
      var k := w.conns[c];
      var down := Read(k.down, k.remote.ssls[0].out, chunk);
      SetConn(w.(local := SetSsl(w.local, c, ReaderEffect(w.local.ssls[c], k.down, down))), c, k.(down := down))
    case UpHandle(c) =>
      var k := w.conns[c];
      SetConn(w, c, k.(upDone := k.upDone + 1, remote := AddResponse(k.remote, k.up.delivered[k.upDone])))
    case DownHandle(c) =>
      var k := w.conns[c];
      var e := AddResponse(w.local, k.down.delivered[k.downDone]);
      World(e, Dialled(e, w.conns[c := k.(downDone := k.downDone + 1)]))
  }

  // -------------------------------------------------------------- behaviours

  ghost predicate Next(w: World, st: Step, w': World) {
    Enabled(w, st) && w' == Do(w, st)
  }

  /** The states ws that the steps sts lead through. */
  ghost predicate Behaviour(ws: seq<World>, sts: seq<Step>) {
    && |ws| == |sts| + 1
    && forall i {:trigger sts[i]} | 0 <= i < |sts| :: Next(ws[i], sts[i], ws[i + 1])
  }

  // -------------------------------------------------------------- hypotheses

  /** No number has outgrown 32 bits. */
  predicate NoWrap(w: World) {
    w.local.udp.session + 1 < Pow256(WORD)
  }

  /** No TCP session shares its number with a UDP session, either. */
  predicate Hypothesis(w: World) {
    NoWrap(w) && forall i | 0 <= i < |w.local.objs| :: w.local.objs[i].session !in w.local.udp.owners
  }

  /** No outgoing TLS connection completes its dial after dropping a frame. */
  predicate Clean(w: World, st: Step) {
    st.AtLocal? ==> SslClean(w.local, st.st)
  }

  ghost predicate CleanBehaviour(ws: seq<World>, sts: seq<Step>) {
    Behaviour(ws, sts) && forall i {:trigger sts[i]} | 0 <= i < |sts| :: Clean(ws[i], sts[i])
  }

  // --------------------------------------------------------------- invariant

  predicate Hosts(k: Conn, s: nat) {
    exists i | 0 <= i < |k.remote.objs| :: Tcp(k.remote.objs[i]) && k.remote.objs[i].session == s
  }

  ghost predicate ConnOk(w: World, c: nat)
    requires c < |w.conns| && c < |w.local.ssls|
  {
    var k := w.conns[c];
    && EInv(k.remote, []) && k.remote.role == RemoteServer && |k.remote.ssls| == 1 && !k.remote.ssls[0].dials
    && ReaderInv(k.up, w.local.ssls[c].out, w.local.ssls[c].offered)
    && ReaderInv(k.down, k.remote.ssls[0].out, k.remote.ssls[0].offered)
    && k.upDone <= |k.up.delivered| && k.remote.handled == k.up.delivered[..k.upDone]
    && k.downDone <= |k.down.delivered|
  }

  /** What the local end has handled of a session came over the connection that
      hosts it. */
  ghost predicate LocalHandled(w: World, s: nat) {
    && ((forall c | 0 <= c < |w.conns| :: !Hosts(w.conns[c], s)) ==> Stream(w.local.handled, s) == [])
    && (forall c | 0 <= c < |w.conns| ::
          Hosts(w.conns[c], s) && w.conns[c].downDone <= |w.conns[c].down.delivered| ==>
            Stream(w.local.handled, s) == Stream(w.conns[c].down.delivered[..w.conns[c].downDone], s))
  }

  ghost predicate WInv(w: World) {
    && EInv(w.local, []) && w.local.role != RemoteServer && |w.conns| == |w.local.ssls|
    && (forall c | 0 <= c < |w.conns| :: ConnOk(w, c))
    && (forall s: nat :: LocalHandled(w, s))
  }

  // -------------------------------------- where a session's START_TCP can be

  /** The frames offered to connection c, among all frames sent. */
  lemma {:induction false} OutgoingAt(ssls: seq<Relay>, c: nat)
    requires c < |ssls|
    ensures Outgoing(ssls[..c]) + Frames(ssls[c].offered) <= Outgoing(ssls)
    decreases |ssls|
  {
    var n := |ssls| - 1;
    assert ssls[..c + 1][..c] == ssls[..c];
    if c < n {
      OutgoingAt(ssls[..n], c);
      assert ssls[..n][..c] == ssls[..c];
    }
  }

  /** In connection order, what a session's streams add up to is a prefix of
      what its relay emitted. */
  lemma StreamsAddUp(e: Endpoint, i: nat, c: nat)
    requires EInv(e, []) && i < |e.objs| && Tcp(e.objs[i]) && c < |e.ssls|
    ensures var s := e.objs[i].session;
            Stream(Outgoing(e.ssls[..c]), s) + Stream(Frames(e.ssls[c].offered), s) <= e.objs[i].emitted
  {
    var s := e.objs[i].session;
    assert ObjOk(e, i, []);
    OutgoingAt(e.ssls, c);
    StreamSplit(Outgoing(e.ssls[..c]), Frames(e.ssls[c].offered), s);
    StreamPrefix(Outgoing(e.ssls[..c]) + Frames(e.ssls[c].offered), Outgoing(e.ssls), s);
    assert Outgoing(e.ssls) + [] == Outgoing(e.ssls);
  }

  /** A number without a TCP relay has no stream frames in any connection. */
  lemma NoRelayNoStream(e: Endpoint, c: nat, s: nat)
    requires EInv(e, []) && c < |e.ssls| && NoTcp(e, s)
    ensures Stream(Frames(e.ssls[c].offered), s) == []
  {
    OutgoingAt(e.ssls, c);
    StreamSplit(Outgoing(e.ssls[..c]), Frames(e.ssls[c].offered), s);
    StreamPrefix(Outgoing(e.ssls[..c]) + Frames(e.ssls[c].offered), Outgoing(e.ssls), s);
    assert Outgoing(e.ssls) + [] == Outgoing(e.ssls);
    assert Stream(Outgoing(e.ssls) + [], s) == [];
  }

  lemma StreamHasRelay(e: Endpoint, c: nat, s: nat)
    requires EInv(e, []) && c < |e.ssls| && Stream(Frames(e.ssls[c].offered), s) != []
    ensures !NoTcp(e, s)
  {
    if NoTcp(e, s) {
      NoRelayNoStream(e, c, s);
    }
  }

  /** The shape of what a relay emitted. */
  lemma EmittedShape(e: Endpoint, i: nat)
    requires EInv(e, []) && i < |e.objs| && Tcp(e.objs[i])
    ensures forall j | 0 <= j < |e.objs[i].emitted| ::
              e.objs[i].emitted[j].cmd == if e.role != RemoteServer && j == 0 then StartTcp else DataTcp
  {
    assert ObjOk(e, i, []);
    assert Emits(e.objs[i], e.role == RemoteServer);
  }

  /** At a local end, a START_TCP in some connection is the session's first
      stream frame there, and no earlier connection carries any. */
  lemma StartIsFirst(e: Endpoint, c: nat, s: nat, j: nat)
    requires EInv(e, []) && e.role != RemoteServer && c < |e.ssls|
    requires j < |Stream(Frames(e.ssls[c].offered), s)| && Stream(Frames(e.ssls[c].offered), s)[j].cmd == StartTcp
    ensures j == 0 && Stream(Outgoing(e.ssls[..c]), s) == []
  {
    StreamHasRelay(e, c, s);
    var i :| 0 <= i < |e.objs| && Tcp(e.objs[i]) && e.objs[i].session == s;
    EmittedShape(e, i);
    StreamsAddUp(e, i, c);
    PositionInSum(Stream(Outgoing(e.ssls[..c]), s), Stream(Frames(e.ssls[c].offered), s), e.objs[i].emitted, j);
  }

  lemma PositionInSum(a: seq<Frame>, b: seq<Frame>, whole: seq<Frame>, j: nat)
    requires a + b <= whole && j < |b|
    ensures whole[|a| + j] == b[j]
  {
  }

  /** A remote end never sends START_TCP. */
  lemma RemoteSendsNoStart(e: Endpoint, f: Frame)
    requires EInv(e, []) && e.role == RemoteServer && |e.ssls| == 1 && f in Frames(e.ssls[0].offered)
    ensures f.cmd != StartTcp
  {
    var s := f.session;
    if OfSession(s, f) {
      InStream(Frames(e.ssls[0].offered), f);
      StreamHasRelay(e, 0, s);
      var i :| 0 <= i < |e.objs| && Tcp(e.objs[i]) && e.objs[i].session == s;
      EmittedShape(e, i);
      StreamsAddUp(e, i, 0);
      var st := Stream(Frames(e.ssls[0].offered), s);
      var j :| 0 <= j < |st| && st[j] == f;
      PositionInSum(Stream(Outgoing(e.ssls[..0]), s), st, e.objs[i].emitted, j);
    }
  }

  lemma {:induction false} InStream(fs: seq<Frame>, f: Frame)
    requires f in fs && OfSession(f.session, f)
    ensures f in Stream(fs, f.session)
  {
    var j :| 0 <= j < |fs| && fs[j] == f;
    assert fs == fs[..j] + [f] + fs[j + 1..];
    StreamSplit(fs[..j] + [f], fs[j + 1..], f.session);
    StreamAppend(fs[..j], f, f.session);
    assert (Stream(fs[..j], f.session) + [f])[|Stream(fs[..j], f.session)|] == f;
  }

  /** A connection that hosts a session carries its START_TCP. */
  lemma HostCarriesStart(w: World, c: nat, s: nat)
    requires WInv(w) && c < |w.conns| && Hosts(w.conns[c], s)
    ensures var st := Stream(Frames(w.local.ssls[c].offered), s);
            st != [] && st[0].cmd == StartTcp
    ensures Stream(w.conns[c].remote.handled, s) <= Stream(Frames(w.local.ssls[c].offered), s)
  {
    hide LocalHandled, ReaderInv;
    var k := w.conns[c];
    assert ConnOk(w, c);
    var i :| 0 <= i < |k.remote.objs| && Tcp(k.remote.objs[i]) && k.remote.objs[i].session == s;
    assert ObjOk(k.remote, i, []);
    HandledPrefix(w, c);
    StreamPrefix(k.remote.handled, Frames(w.local.ssls[c].offered), s);
  }

  lemma HandledPrefix(w: World, c: nat)
    requires c < |w.conns| && c < |w.local.ssls| && ConnOk(w, c)
    ensures w.conns[c].remote.handled <= w.conns[c].up.delivered <= Frames(w.local.ssls[c].offered)
    ensures w.conns[c].down.delivered <= Frames(w.conns[c].remote.ssls[0].offered)
  {
    var k := w.conns[c];
    assert Frames(w.local.ssls[c].offered[..|k.up.delivered|]) <= Frames(w.local.ssls[c].offered);
    assert Frames(k.remote.ssls[0].offered[..|k.down.delivered|]) <= Frames(k.remote.ssls[0].offered);
  }

  /** Connections before the one with a session's START_TCP carry none of its
      stream. */
  lemma NothingBeforeStart(e: Endpoint, c: nat, d: nat, s: nat)
    requires EInv(e, []) && e.role != RemoteServer && c < d < |e.ssls|
    requires Stream(Frames(e.ssls[d].offered), s) != [] && Stream(Frames(e.ssls[d].offered), s)[0].cmd == StartTcp
    ensures Stream(Frames(e.ssls[c].offered), s) == []
  {
    hide EInv;
    StartIsFirst(e, d, s, 0);
    OutgoingAt(e.ssls[..d], c);
    assert e.ssls[..d][..c] == e.ssls[..c] && e.ssls[..d][c] == e.ssls[c];
    StreamPrefix(Outgoing(e.ssls[..c]) + Frames(e.ssls[c].offered), Outgoing(e.ssls[..d]), s);
    StreamSplit(Outgoing(e.ssls[..c]), Frames(e.ssls[c].offered), s);
  }

  /** A session is hosted by at most one connection. */
  lemma OneHost(w: World, c: nat, d: nat, s: nat)
    requires WInv(w) && c < |w.conns| && d < |w.conns| && Hosts(w.conns[c], s) && Hosts(w.conns[d], s)
    ensures c == d
  {
    HostCarriesStart(w, c, s);
    HostCarriesStart(w, d, s);
    if c < d {
      NothingBeforeStart(w.local, c, d, s);
    } else if d < c {
      NothingBeforeStart(w.local, d, c, s);
    }
  }

  /** A hosted session is one of the local end's TCP sessions. */
  lemma HostedIsLocal(w: World, c: nat, s: nat)
    requires WInv(w) && c < |w.conns| && Hosts(w.conns[c], s)
    ensures !NoTcp(w.local, s)
  {
    HostCarriesStart(w, c, s);
    StreamHasRelay(w.local, c, s);
  }
}
