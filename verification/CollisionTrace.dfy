/** Why TCP and UDP sessions must not share numbers: a behaviour of the whole
    system in which a client's datagram comes out of a stranger's TCP stream. */
module CollisionTrace {
  import opened Bytes
  import opened RelayData
  import opened RelayQueue
  import opened SslReader
  import opened Endpoints
  import opened Sessions
  import opened EndToEnd
  import opened EndMoves
  import U = UdpTables

  ghost predicate Reaches(w: World, w': World) {
    exists ws, sts :: CleanBehaviour(ws, sts) && ws[0] == w && ws[|sts|] == w'
  }

  lemma ReachesStep(w: World, st: Sessions.Step, w': World)
    requires Next(w, st, w') && Sessions.Clean(w, st)
    ensures Reaches(w, w')
  {
    hide Next, Sessions.Clean;
    assert CleanBehaviour([w, w'], [st]);
  }

  lemma ReachesTrans(a: World, b: World, c: World)
    requires Reaches(a, b) && Reaches(b, c)
    ensures Reaches(a, c)
  {
    hide Next, Sessions.Clean;
    var ws, sts :| CleanBehaviour(ws, sts) && ws[0] == a && ws[|sts|] == b;
    var us, uts :| CleanBehaviour(us, uts) && us[0] == b && us[|uts|] == c;
    var xs, xts := ws + us[1..], sts + uts;
    forall i | 0 <= i < |xts|
      ensures Next(xs[i], xts[i], xs[i + 1]) && Sessions.Clean(xs[i], xts[i])
    {
      if i < |sts| {
        assert xts[i] == sts[i] && xs[i] == ws[i] && xs[i + 1] == ws[i + 1];
      } else {
        assert xts[i] == uts[i - |sts|] && xs[i] == us[i - |sts|] && xs[i + 1] == us[i - |sts| + 1];
      }
    }
    assert CleanBehaviour(xs, xts);
  }

  // ------------------------------------------- carrying a frame to the far side

  /** A connection at rest but for its inbox. */
  predicate Rests(r: Relay) {
    r.state == Init && r.sock == Open && r.startDone && r.writers == [] && r.queue == []
  }

  /** After one frame has been written. */
  function Written(r: Relay, b: Buf): Relay {
    r.(inbox := [], accepted := r.accepted + [b], written := r.written + [b], out := r.out + b.bytes,
       timeout := TIMEOUT)
  }

  function WithSsl(w: World, r: Relay): World
    requires |w.local.ssls| == 1
  {
    w.(local := SetSsl(w.local, 0, r))
  }

  lemma SslMoves(w: World, q: RelayQueue.Step)
    requires |w.local.ssls| == 1 == |w.conns| && RelayQueue.Enabled(w.local.ssls[0], q) && q != CallStop
    requires RelayQueue.Clean(w.local.ssls[0], q)
    ensures Reaches(w, WithSsl(w, Apply(w.local.ssls[0], q)))
  {
    var w' := WithSsl(w, Apply(w.local.ssls[0], q));
    ReachesStep(w, AtLocal(SslStep(0, q)), w');
  }

  lemma WritesOne(r: Relay, b: Buf)
    requires Rests(r) && r.inbox == [Send(b)] && b.bytes != []
    ensures RelayQueue.Enabled(r, Receive)
    ensures var r1 := Apply(r, Receive);
            && RelayQueue.Enabled(r1, RunSpawned)
            && var r2 := Apply(r1, RunSpawned);
            && RelayQueue.Enabled(r2, Accept(0, |b.bytes|))
            && var r3 := Apply(r2, Accept(0, |b.bytes|));
            RelayQueue.Enabled(r3, WriteDone(0)) && Apply(r3, WriteDone(0)) == Written(r, b)
  {
    var r1 := Apply(r, Receive);
    assert r1.queue == [b] && r1.inbox == [];
    var r2 := Apply(r1, RunSpawned);
    assert r2.writers == [Writer(b, 0)];
    var r3 := Apply(r2, Accept(0, |b.bytes|));
    assert b.bytes[0..0 + |b.bytes|] == b.bytes;
    assert r3.writers == [Writer(b, |b.bytes|)];
    assert Without(r3.writers, 0) == [];
  }

  lemma WriteReaches(w: World, b: Buf)
    requires |w.local.ssls| == 1 == |w.conns| && Rests(w.local.ssls[0])
    requires w.local.ssls[0].inbox == [Send(b)] && b.bytes != []
    ensures Reaches(w, WithSsl(w, Written(w.local.ssls[0], b)))
  {
    hide Reaches, Apply, RelayQueue.Enabled, Rests;
    var r := w.local.ssls[0];
    WritesOne(r, b);
    var r1 := Apply(r, Receive);
    var w1 := WithSsl(w, r1);
    SslMoves(w, Receive);
    var r2 := Apply(r1, RunSpawned);
    var w2 := WithSsl(w1, r2);
    SslMoves(w1, RunSpawned);
    ReachesTrans(w, w1, w2);
    var r3 := Apply(r2, Accept(0, |b.bytes|));
    var w3 := WithSsl(w2, r3);
    SslMoves(w2, Accept(0, |b.bytes|));
    ReachesTrans(w, w2, w3);
    SslMoves(w3, WriteDone(0));
    ReachesTrans(w, w3, WithSsl(w3, Written(r, b)));
    assert WithSsl(w3, Written(r, b)) == WithSsl(w, Written(r, b));
  }

  /** The far side has read and handled all that was written before `wire`'s last
      frame f. */
  predicate Behind(k: Conn, wire: seq<byte>, f: Frame) {
    && k.up.phase.InHeader? && |k.remote.ssls| == 1 && k.remote.ssls[0].startDone
    && k.upDone == |k.up.delivered| && k.up.pos <= |wire| && wire[k.up.pos..] == Encode(f)
  }

  lemma ReadsFrame(rd: Reader, wire: seq<byte>, f: Frame)
    requires WellFormed(f) && f.data != [] && rd.phase.InHeader? && rd.pos <= |wire| && wire[rd.pos..] == Encode(f)
    ensures CanRead(rd, wire, Chunk(HEADER_SIZE))
    ensures var mid := Read(rd, wire, Chunk(HEADER_SIZE));
            && !mid.phase.Ended? && mid.delivered == rd.delivered
            && CanRead(mid, wire, Chunk(|f.data|))
            && Read(mid, wire, Chunk(|f.data|)) == Reader(|wire|, InHeader, rd.delivered + [f])
  {
    assert wire[rd.pos..rd.pos + HEADER_SIZE] == Encode(f)[0..HEADER_SIZE];
    HeaderSlice(f);
    var mid := Read(rd, wire, Chunk(HEADER_SIZE));
    assert mid == rd.(pos := rd.pos + HEADER_SIZE, phase := InBody(Header(f.session, f.cmd, |f.data|), []));
    BodySlice(f, 0, |f.data|);
    assert wire[rd.pos + HEADER_SIZE..rd.pos + HEADER_SIZE + |f.data|] == Encode(f)[HEADER_SIZE + 0..HEADER_SIZE + |f.data|];
    assert f.data[0..|f.data|] == f.data && [] + f.data == f.data;
  }

  /** The connection once f has been read and handled. */
  function Carried(k: Conn, wire: seq<byte>, f: Frame): Conn
    requires |k.remote.ssls| == 1 && CanHandle(SetSsl(k.remote, 0, ResetTimeout(k.remote.ssls[0])), f)
  {
    k.(up := Reader(|wire|, InHeader, k.up.delivered + [f]), upDone := k.upDone + 1,
       remote := AddResponse(SetSsl(k.remote, 0, ResetTimeout(k.remote.ssls[0])), f))
  }

  lemma ReadReaches(w: World, f: Frame)
    requires |w.local.ssls| == 1 == |w.conns| && WellFormed(f) && f.data != []
    requires Behind(w.conns[0], w.local.ssls[0].out, f)
    requires CanHandle(SetSsl(w.conns[0].remote, 0, ResetTimeout(w.conns[0].remote.ssls[0])), f)
    ensures Reaches(w, w.(conns := [Carried(w.conns[0], w.local.ssls[0].out, f)]))
  {
    hide Reaches, Read, CanRead, CanHandle, AddResponse, Encode, WellFormed;
    var k := w.conns[0];
    var wire := w.local.ssls[0].out;
    ReadsFrame(k.up, wire, f);
    var mid := Read(k.up, wire, Chunk(HEADER_SIZE));
    var k1 := k.(up := mid);
    var w1 := w.(conns := [k1]);
    assert SetSsl(k.remote, 0, k.remote.ssls[0]) == k.remote;
    ReachesStep(w, UpRead(0, Chunk(HEADER_SIZE)), w1);
    var k2 := k1.(up := Reader(|wire|, InHeader, k.up.delivered + [f]),
                  remote := SetSsl(k.remote, 0, ResetTimeout(k.remote.ssls[0])));
    var w2 := w.(conns := [k2]);
    assert k2.up.delivered != mid.delivered;
    ReachesStep(w1, UpRead(0, Chunk(|f.data|)), w2);
    ReachesTrans(w, w1, w2);
    var w3 := w.(conns := [Carried(k, wire, f)]);
    assert k2.up.delivered[k2.upDone] == f;
    ReachesStep(w2, UpHandle(0), w3);
    ReachesTrans(w, w2, w3);
  }

  /** One frame, from the local end's inbox to the remote manager. */
  predicate Ready(w: World, f: Frame) {
    && |w.local.ssls| == 1 == |w.conns| && Rests(w.local.ssls[0]) && w.local.ssls[0].inbox == [Send(Load(Ssl, f))]
    && CaughtUp(w.conns[0], w.local.ssls[0].out)
    && WellFormed(f) && f.data != [] && f.cmd in {DataUdp, StartTcp}
    && CanHandle(SetSsl(w.conns[0].remote, 0, ResetTimeout(w.conns[0].remote.ssls[0])), f)
  }

  predicate CaughtUp(k: Conn, wire: seq<byte>) {
    && k.up.phase.InHeader? && |k.remote.ssls| == 1 && k.remote.ssls[0].startDone
    && k.upDone == |k.up.delivered| && k.up.pos == |wire|
  }

  function AfterCarry(w: World, f: Frame): World
    requires Ready(w, f)
  {
    var r := Written(w.local.ssls[0], Load(Ssl, f));
    World(SetSsl(w.local, 0, r), [Carried(w.conns[0], r.out, f)])
  }

  lemma Carry(w: World, f: Frame)
    requires Ready(w, f)
    ensures Reaches(w, AfterCarry(w, f))
    ensures var w' := AfterCarry(w, f);
            && Rests(w'.local.ssls[0]) && w'.local.ssls[0].inbox == [] && CaughtUp(w'.conns[0], w'.local.ssls[0].out)
  {
    hide Reaches, CanHandle, AddResponse, WellFormed;
    var b := Load(Ssl, f);
    var r := Written(w.local.ssls[0], b);
    WriteReaches(w, b);
    var w1 := WithSsl(w, r);
    assert r.out[w.conns[0].up.pos..] == Encode(f);
    ReadReaches(w1, f);
    ReachesTrans(w, w1, AfterCarry(w, f));
    SameRemoteSsl(SetSsl(w.conns[0].remote, 0, ResetTimeout(w.conns[0].remote.ssls[0])), f);
  }

  /** Handling such a frame leaves the end's connection alone. */
  lemma SameRemoteSsl(e: Endpoint, f: Frame)
    requires CanHandle(e, f) && f.cmd in {DataUdp, StartTcp}
    ensures AddResponse(e, f).ssls == e.ssls
  {
    var h := e.(handled := e.handled + [f]);
    match f.cmd
    case DataUdp => UdpMoves(h, f);
    case StartTcp => StartMoves(h, f);
  }

  // -------------------------------------------------------------- the behaviour

  /** The local end: one TCP relay of session 2, and a UDP client that has been
      given the same number; its connection is at rest with `inbox` to come. */
  predicate LocalSide(e: Endpoint, src: U.Client, inbox: seq<RelayQueue.Message>) {
    && e.role == LocalTransparent && e.ssl == Some(0) && |e.ssls| == 1
    && Rests(e.ssls[0]) && e.ssls[0].inbox == inbox
    && e.udp.senders != [] && U.SessionOf(e.udp, src) == 2 && e.udp.session == 3
    && |e.objs| == 1 && Tcp(e.objs[0]) && e.objs[0].session == 2 && e.objs[0].input == []
  }

  predicate NotStartedYet(o: Obj) {
    o.loop == NotStarted && !o.relay.startDone && o.outbox == []
  }

  /** The remote end: relay v is what it has for session 2. */
  predicate RemoteSide(e: Endpoint, v: nat, tcp: bool) {
    && e.role == RemoteServer && e.relays == map[2 := Some(v)] && |e.objs| == v + 1
    && e.objs[v].session == 2 && Tcp(e.objs[v]) == tcp && SslOk(e)
  }

  function Datagram(d: seq<byte>): Frame {
    Frame(2, DataUdp, d)
  }

  function Both(w: World): bool {
    |w.local.ssls| == 1 == |w.conns| && CaughtUp(w.conns[0], w.local.ssls[0].out)
  }

  /** A UDP client, then a TCP client. */
  lemma TwoClients(src: U.Client, d: seq<byte>) returns (w: World)
    requires ADDRESS_SIZE <= |d| <= READ_BUFFER_SIZE
    ensures Reaches(Initial(LocalTransparent), w)
    ensures w == World(AddLocalTcp(SendUdpData(NewLocal(LocalTransparent), src, d)), [NEW_CONN])
  {
    hide Reaches;
    var w0 := Initial(LocalTransparent);
    var e1 := SendUdpData(w0.local, src, d);
    var w1 := World(e1, [NEW_CONN]);
    assert e1.ssls == [Post(Fresh(Ssl, true), Send(Load(Ssl, Datagram(d))))];
    ReachesStep(w0, AtLocal(AcceptUdp(src, d)), w1);
    w := World(AddLocalTcp(e1), [NEW_CONN]);
    ReachesStep(w1, AtLocal(AcceptTcp), w);
    ReachesTrans(w0, w1, w);
  }

  /** And the connection for both. */
  lemma Opening(src: U.Client, d: seq<byte>) returns (w: World)
    requires ADDRESS_SIZE <= |d| <= READ_BUFFER_SIZE
    ensures Reaches(Initial(LocalTransparent), w) && Both(w)
    ensures LocalSide(w.local, src, [Send(Load(Ssl, Datagram(d)))]) && NotStartedYet(w.local.objs[0])
    ensures var e := w.conns[0].remote;
            e.role == RemoteServer && e.relays == map[] && e.objs == [] && SslOk(e) && TableOk(e)
  {
    hide Reaches;
    var w0 := Initial(LocalTransparent);
    var w2 := TwoClients(src, d);
    assert w2.local.ssls == [Post(Fresh(Ssl, true), Send(Load(Ssl, Datagram(d))))];
    var w3 := WithSsl(w2, Apply(w2.local.ssls[0], StartOk));
    SslMoves(w2, StartOk);
    ReachesTrans(w0, w2, w3);
    w := w3.(conns := [NEW_CONN.(remote := SetSsl(NewRemote(), 0, Apply(Fresh(Ssl, false), StartOk)))]);
    ReachesStep(w3, AtRemote(0, SslStep(0, StartOk)), w);
    ReachesTrans(w0, w3, w);
  }

  lemma SmallNumber(d: seq<byte>)
    requires ADDRESS_SIZE <= |d| <= READ_BUFFER_SIZE
    ensures WellFormed(Datagram(d)) && Pow256(WORD) > 4
  {
    Powers();
  }

  lemma UdpOpens(e: Endpoint, d: seq<byte>)
    requires |d| <= READ_BUFFER_SIZE && e.role == RemoteServer && e.relays == map[] && e.objs == [] && SslOk(e)
    ensures CanHandle(e, Datagram(d)) && RemoteSide(AddResponse(e, Datagram(d)), 0, false)
  {
  }

  /** The first datagram gets the number a UDP relay at the remote end. */
  lemma UdpComes(w: World, src: U.Client, d: seq<byte>) returns (w': World)
    requires ADDRESS_SIZE <= |d| <= READ_BUFFER_SIZE && Both(w)
    requires LocalSide(w.local, src, [Send(Load(Ssl, Datagram(d)))])
    requires var e := w.conns[0].remote;
             e.role == RemoteServer && e.relays == map[] && e.objs == [] && SslOk(e) && TableOk(e)
    ensures Reaches(w, w') && Both(w') && LocalSide(w'.local, src, []) && w'.local.objs == w.local.objs
    ensures RemoteSide(w'.conns[0].remote, 0, false)
  {
    hide Reaches, AddResponse, RemoteSide, WellFormed;
    SmallNumber(d);
    UdpOpens(SetSsl(w.conns[0].remote, 0, ResetTimeout(w.conns[0].remote.ssls[0])), d);
    w' := AfterCarry(w, Datagram(d));
    Carry(w, Datagram(d));
  }

  /** The TCP relay's START_TCP is posted to the connection. */
  lemma StartPosted(w: World, src: U.Client, data: seq<byte>) returns (w': World)
    requires Both(w) && LocalSide(w.local, src, []) && NotStartedYet(w.local.objs[0])
    requires |data| <= READ_BUFFER_SIZE && DestOf(data).Ok?
    ensures Reaches(w, w') && Both(w') && w'.conns == w.conns
    ensures LocalSide(w'.local, src, [Send(Load(Ssl, Frame(2, StartTcp, data)))])
  {
    var o := StartEmitted(w.local.objs[0], data);
    var w1 := w.(local := SetObj(w.local, 0, o));
    ReachesStep(w, AtLocal(EmitStart(0, data)), w1);
    assert o.outbox == [Frame(2, StartTcp, data)];
    var e := AddRequest(TakeRequest(w1.local, 0), o.outbox[0]);
    w' := w.(local := e);
    assert e.ssls[0] == Post(w.local.ssls[0], Send(Load(Ssl, Frame(2, StartTcp, data))));
    ReachesStep(w1, AtLocal(Request(0)), w');
    ReachesTrans(w, w1, w');
  }

  /** It stops the UDP relay and puts a TCP relay in its place. */
  lemma StartComes(w: World, src: U.Client, data: seq<byte>) returns (w': World)
    requires Both(w) && LocalSide(w.local, src, [Send(Load(Ssl, Frame(2, StartTcp, data)))])
    requires |data| <= READ_BUFFER_SIZE && DestOf(data).Ok? && RemoteSide(w.conns[0].remote, 0, false)
    requires data != []
    ensures Reaches(w, w') && Both(w') && LocalSide(w'.local, src, [])
    ensures RemoteSide(w'.conns[0].remote, 1, true) && w'.conns[0].remote.objs[1].relay == Fresh(RawTcp, true)
    ensures w'.conns[0].remote.objs[0].relay.stopCalled
  {
    Powers();
    w' := AfterCarry(w, Frame(2, StartTcp, data));
    Carry(w, Frame(2, StartTcp, data));
  }

  /** The UDP client sends again. */
  lemma UdpPosted(w: World, src: U.Client, d: seq<byte>) returns (w': World)
    requires ADDRESS_SIZE <= |d| <= READ_BUFFER_SIZE && Both(w) && LocalSide(w.local, src, [])
    ensures Reaches(w, w') && Both(w') && w'.conns == w.conns
    ensures LocalSide(w'.local, src, [Send(Load(Ssl, Datagram(d)))])
  {
    w' := w.(local := SendUdpData(w.local, src, d));
    assert w'.local.ssls[0] == Post(w.local.ssls[0], Send(Load(Ssl, Datagram(d))));
    ReachesStep(w, AtLocal(AcceptUdp(src, d)), w');
  }

  lemma UdpEnters(e: Endpoint, d: seq<byte>)
    requires |d| <= READ_BUFFER_SIZE && RemoteSide(e, 1, true) && e.objs[1].relay == Fresh(RawTcp, true)
    ensures CanHandle(e, Datagram(d))
    ensures var e' := AddResponse(e, Datagram(d));
            RemoteSide(e', 1, true) && e'.objs[1].relay == Post(Fresh(RawTcp, true), Send(Buf(Datagram(d), d)))
  {
  }

  lemma UdpMisdirected(w: World, src: U.Client, d: seq<byte>) returns (w': World)
    requires ADDRESS_SIZE <= |d| <= READ_BUFFER_SIZE && Both(w)
    requires LocalSide(w.local, src, [Send(Load(Ssl, Datagram(d)))])
    requires RemoteSide(w.conns[0].remote, 1, true) && w.conns[0].remote.objs[1].relay == Fresh(RawTcp, true)
    ensures Reaches(w, w') && Both(w') && LocalSide(w'.local, src, [])
    ensures RemoteSide(w'.conns[0].remote, 1, true)
    ensures w'.conns[0].remote.objs[1].relay == Post(Fresh(RawTcp, true), Send(Buf(Datagram(d), d)))
  {
    hide Reaches, AddResponse, WellFormed, Fresh;
    SmallNumber(d);
    UdpEnters(SetSsl(w.conns[0].remote, 0, ResetTimeout(w.conns[0].remote.ssls[0])), d);
    w' := AfterCarry(w, Datagram(d));
    Carry(w, Datagram(d));
  }

  lemma RelayWrites(d: seq<byte>)
    requires d != []
    ensures var b := Buf(Datagram(d), d);
            var r := Post(Fresh(RawTcp, true), Send(b));
            && RelayQueue.Enabled(r, StartOk) && Rests(Apply(r, StartOk)) && Apply(r, StartOk).inbox == [Send(b)]
            && Written(Apply(r, StartOk), b).out == d && Apply(r, StartOk).kind == RawTcp
  {
    assert [] + d == d;
  }

  function WithObj1(w: World, o: Obj): World
    requires |w.conns| == 1 && |w.conns[0].remote.objs| == 2
  {
    w.(conns := [w.conns[0].(remote := SetObj(w.conns[0].remote, 1, o))])
  }

  lemma RemoteObjMoves(w: World, o: Obj, q: RelayQueue.Step)
    requires |w.conns| == 1 && |w.conns[0].remote.objs| == 2 && w.conns[0].remote.role == RemoteServer
    requires CanStep(w.conns[0].remote, o, q)
    ensures Reaches(WithObj1(w, o), WithObj1(w, ObjAfter(o, q, false)))
  {
    hide Reaches;
    var w1 := WithObj1(w, o);
    var w2 := WithObj1(w, ObjAfter(o, q, false));
    var objs := w.conns[0].remote.objs;
    assert objs[1 := o][1 := ObjAfter(o, q, false)] == objs[1 := ObjAfter(o, q, false)];
    ReachesStep(w1, AtRemote(0, ObjStep(1, q)), w2);
  }

  /** The TCP relay connects and writes the datagram to its socket. */
  lemma DatagramComesOut(w: World, d: seq<byte>) returns (w': World)
    requires |w.conns| == 1 && RemoteSide(w.conns[0].remote, 1, true) && d != []
    requires w.conns[0].remote.objs[1].relay == Post(Fresh(RawTcp, true), Send(Buf(Datagram(d), d)))
    ensures Reaches(w, w') && |w'.conns| == 1 && w'.local == w.local && |w'.conns[0].remote.objs| == 2
    ensures var o := w'.conns[0].remote.objs[1];
            Tcp(o) && o.session == 2 && o.relay.out == d
  {
    hide Reaches, Apply, RelayQueue.Enabled, Rests, Fresh, Post;
    var b := Buf(Datagram(d), d);
    var o := w.conns[0].remote.objs[1];
    RelayWrites(d);
    var o0 := ObjAfter(o, StartOk, false);
    WritesOne(o0.relay, b);
    var o1 := ObjAfter(o0, Receive, false);
    var o2 := ObjAfter(o1, RunSpawned, false);
    var o3 := ObjAfter(o2, Accept(0, |d|), false);
    assert w.conns == [w.conns[0]] && w.conns[0].remote.objs[1 := o] == w.conns[0].remote.objs;
    RemoteObjMoves(w, o, StartOk);
    RemoteObjMoves(w, o0, Receive);
    ReachesTrans(w, WithObj1(w, o0), WithObj1(w, o1));
    RemoteObjMoves(w, o1, RunSpawned);
    ReachesTrans(w, WithObj1(w, o1), WithObj1(w, o2));
    RemoteObjMoves(w, o2, Accept(0, |d|));
    ReachesTrans(w, WithObj1(w, o2), WithObj1(w, o3));
    RemoteObjMoves(w, o3, WriteDone(0));
    w' := WithObj1(w, ObjAfter(o3, WriteDone(0), false));
    ReachesTrans(w, WithObj1(w, o3), w');
  }

  lemma Broken(w: World, src: U.Client, d: seq<byte>)
    requires LocalSide(w.local, src, []) && |w.conns| == 1 && |w.conns[0].remote.objs| == 2 && d != []
    requires var o := w.conns[0].remote.objs[1]; Tcp(o) && o.session == 2 && o.relay.out == d
    ensures NoWrap(w) && !Intact(w)
  {
    Powers();
    assert !(w.conns[0].remote.objs[1].relay.out <= w.local.objs[0].input);
  }

  /** Everything but the numbers is as it should be: the counter has not wrapped
      and no dial completes after a loss. Still a socket at the remote end has
      taken bytes, a datagram's, that its own client has never sent. */
  lemma SharedNumberBreaksStream(src: U.Client, d: seq<byte>, data: seq<byte>) returns (ws: seq<World>, sts: seq<Sessions.Step>)
    requires ADDRESS_SIZE <= |d| <= READ_BUFFER_SIZE && data != [] && |data| <= READ_BUFFER_SIZE && DestOf(data).Ok?
    ensures CleanBehaviour(ws, sts) && ws[0] == Initial(LocalTransparent) && NoWrap(ws[|sts|]) && !Intact(ws[|sts|])
  {
    hide Next, Sessions.Clean, LocalSide, RemoteSide, CaughtUp, NotStartedYet, Intact, NoWrap, Initial;
    var w0 := Initial(LocalTransparent);
    var w := Misdirected(src, d, data);
    var w7 := DatagramComesOut(w, d);
    ReachesTrans(w0, w, w7);
    Broken(w7, src, d);
    ws, sts :| CleanBehaviour(ws, sts) && ws[0] == w0 && ws[|sts|] == w7;
  }

  lemma Misdirected(src: U.Client, d: seq<byte>, data: seq<byte>) returns (w: World)
    requires ADDRESS_SIZE <= |d| <= READ_BUFFER_SIZE && data != [] && |data| <= READ_BUFFER_SIZE && DestOf(data).Ok?
    ensures Reaches(Initial(LocalTransparent), w) && Both(w) && LocalSide(w.local, src, [])
    ensures RemoteSide(w.conns[0].remote, 1, true)
    ensures w.conns[0].remote.objs[1].relay == Post(Fresh(RawTcp, true), Send(Buf(Datagram(d), d)))
  {
    hide Reaches, CaughtUp, Initial, Rests, Fresh;
    var w0 := Initial(LocalTransparent);
    var w1 := Opening(src, d);
    var w2 := UdpComes(w1, src, d);
    ReachesTrans(w0, w1, w2);
    var w3 := StartPosted(w2, src, data);
    ReachesTrans(w0, w2, w3);
    var w4 := StartComes(w3, src, data);
    ReachesTrans(w0, w3, w4);
    var w5 := UdpPosted(w4, src, d);
    ReachesTrans(w0, w4, w5);
    w := UdpMisdirected(w5, src, d);
    ReachesTrans(w0, w5, w);
  }
}
