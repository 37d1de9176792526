/** The invariant of the whole system holds in every reachable state. */
module SystemRuns {
  import opened Bytes
  import opened RelayData
  import opened RelayQueue
  import opened SslReader
  import opened Streams
  import opened Endpoints
  import opened EndpointInv
  import opened EndpointSteps
  import opened EndpointStrands
  import opened Sessions
  import opened EndMoves

  // ------------------------------------------------------- fresh connections

  lemma NewReaderOk(offered: seq<Buf>)
    requires Sendable(offered)
    ensures ReaderInv(NEW_READER, [], offered)
  {
    assert Flatten(offered[..0]) == [];
    assert Frames(offered[..0]) == [];
  }

  lemma NewRemoteOk()
    ensures EInv(NewRemote(), [])
  {
    FreshSslOk();
    var e := NewRemote();
    assert e.ssls[..0] == [];
    assert Frames(e.ssls[0].offered) == [];
    assert Outgoing(e.ssls[..0]) == [];
    assert Outgoing(e.ssls) == [];
  }

  lemma NewConnOk(w: World, c: nat)
    requires c < |w.conns| && c < |w.local.ssls| && w.conns[c] == NEW_CONN
    requires SslRelayOk(w.local.ssls[c]) && w.local.ssls[c].out == []
    ensures ConnOk(w, c)
  {
    NewRemoteOk();
    NewReaderOk(w.local.ssls[c].offered);
    NewReaderOk(NewRemote().ssls[0].offered);
  }

  lemma NewLocalOk(role: Role)
    requires role != RemoteServer
    ensures WInv(Initial(role))
  {
    assert Outgoing([]) + [] == [];
  }

  // ------------------------------------------- sessions and who hosts them

  lemma HostsSame(k: Conn, k': Conn)
    requires SameObjs(k.remote, k'.remote) && |k'.remote.objs| == |k.remote.objs|
    ensures forall s: nat :: Hosts(k', s) <==> Hosts(k, s)
  {
    forall s: nat
      ensures Hosts(k', s) <==> Hosts(k, s)
    {
      if Hosts(k, s) {
        var i :| 0 <= i < |k.remote.objs| && Tcp(k.remote.objs[i]) && k.remote.objs[i].session == s;
        assert Tcp(k'.remote.objs[i]) && k'.remote.objs[i].session == s;
      }
      if Hosts(k', s) {
        var i :| 0 <= i < |k'.remote.objs| && Tcp(k'.remote.objs[i]) && k'.remote.objs[i].session == s;
        assert Tcp(k.remote.objs[i]) && k.remote.objs[i].session == s;
      }
    }
  }

  lemma DownDone(w: World)
    requires WInv(w)
    ensures forall c | 0 <= c < |w.conns| :: w.conns[c].downDone <= |w.conns[c].down.delivered|
  {
    forall c | 0 <= c < |w.conns|
      ensures w.conns[c].downDone <= |w.conns[c].down.delivered|
    {
      assert ConnOk(w, c);
    }
  }

  /** A connection after a step in which the manager behind it handled nothing. */
  predicate Quiet(k: Conn, k': Conn, s: nat) {
    && (Hosts(k', s) <==> Hosts(k, s)) && k'.downDone == k.downDone && k.down.delivered <= k'.down.delivered
  }

  lemma HandledUnchanged(w: World, w': World, s: nat)
    requires WInv(w) && w'.local.handled == w.local.handled && |w'.conns| >= |w.conns|
    requires forall c | 0 <= c < |w.conns| :: Quiet(w.conns[c], w'.conns[c], s)
    requires forall c | |w.conns| <= c < |w'.conns| :: !Hosts(w'.conns[c], s)
    ensures LocalHandled(w', s)
  {
    DownDone(w);
    assert LocalHandled(w, s);
    forall c | 0 <= c < |w'.conns| && Hosts(w'.conns[c], s)
      ensures Stream(w'.local.handled, s) == Stream(w'.conns[c].down.delivered[..w'.conns[c].downDone], s)
    {
      assert Quiet(w.conns[c], w'.conns[c], s);
      assert w'.conns[c].down.delivered[..w.conns[c].downDone] == w.conns[c].down.delivered[..w.conns[c].downDone];
    }
    if forall c | 0 <= c < |w'.conns| :: !Hosts(w'.conns[c], s) {
      forall c | 0 <= c < |w.conns|
        ensures !Hosts(w.conns[c], s)
      {
        assert Quiet(w.conns[c], w'.conns[c], s) && !Hosts(w'.conns[c], s);
      }
    }
  }

  lemma NothingHosted(s: nat)
    ensures !Hosts(NEW_CONN, s)
  {
  }

  // ---------------------------------------------------- an end moves by itself

  /** A connection whose two ends may have moved, but not their read loops. */
  lemma ConnMoves(w: World, w': World, c: nat)
    requires c < |w.conns| && c < |w.local.ssls| && ConnOk(w, c)
    requires c < |w'.conns| && c < |w'.local.ssls| && SslRelayOk(w'.local.ssls[c]) && Longer(w.local.ssls[c], w'.local.ssls[c])
    requires w'.conns[c] == w.conns[c].(remote := w'.conns[c].remote)
    requires EInv(w'.conns[c].remote, []) && Moves(w.conns[c].remote, w'.conns[c].remote)
    requires w'.conns[c].remote.handled == w.conns[c].remote.handled
    ensures ConnOk(w', c)
  {
    UpMoves(w, w', c);
    DownMoves(w.conns[c], w'.conns[c]);
  }

  lemma UpMoves(w: World, w': World, c: nat)
    requires c < |w.conns| && c < |w.local.ssls| && c < |w'.local.ssls|
    requires ReaderInv(w.conns[c].up, w.local.ssls[c].out, w.local.ssls[c].offered)
    requires SslRelayOk(w'.local.ssls[c]) && Longer(w.local.ssls[c], w'.local.ssls[c])
    ensures ReaderInv(w.conns[c].up, w'.local.ssls[c].out, w'.local.ssls[c].offered)
  {
    var a, b := w.local.ssls[c], w'.local.ssls[c];
    ReaderInvGrows(w.conns[c].up, a.out, a.offered, b.out, b.offered);
  }

  lemma DownMoves(k: Conn, k': Conn)
    requires |k.remote.ssls| == 1 && ReaderInv(k.down, k.remote.ssls[0].out, k.remote.ssls[0].offered)
    requires k.remote.role == RemoteServer && Moves(k.remote, k'.remote) && SslInv(k'.remote)
    ensures |k'.remote.ssls| == 1 && ReaderInv(k.down, k'.remote.ssls[0].out, k'.remote.ssls[0].offered)
  {
    var a, b := k.remote.ssls[0], k'.remote.ssls[0];
    assert Longer(a, b) && SslRelayOk(b);
    ReaderInvGrows(k.down, a.out, a.offered, b.out, b.offered);
  }

  lemma OldConnOk(w: World, e: Endpoint, conns: seq<Conn>, c: nat)
    requires c < |w.conns| && c < |w.local.ssls| && ConnOk(w, c)
    requires c < |e.ssls| && SslRelayOk(e.ssls[c]) && Longer(w.local.ssls[c], e.ssls[c])
    requires c < |conns| && conns[c] == w.conns[c]
    ensures ConnOk(World(e, conns), c)
  {
    UpMoves(w, World(e, conns), c);
  }

  lemma LocalConnOk(w: World, e: Endpoint, conns: seq<Conn>, c: nat)
    requires WInv(w) && SslInv(e) && Grown(w.local.ssls, e.ssls) && c < |conns| && |conns| == |e.ssls|
    requires if c < |w.conns| then conns[c] == w.conns[c] else conns[c] == NEW_CONN
    ensures ConnOk(World(e, conns), c)
  {
    hide EInv, ReaderInv, SslRelayOk, LocalHandled;
    assert SslRelayOk(e.ssls[c]);
    if c < |w.conns| {
      assert ConnOk(w, c) && Longer(w.local.ssls[c], e.ssls[c]);
      OldConnOk(w, e, conns, c);
    } else {
      NewConnOk(World(e, conns), c);
    }
  }

  /** The local end takes a step of its own. */
  lemma LocalStepKeeps(w: World, e: Endpoint)
    requires WInv(w) && EInv(e, []) && Moves(w.local, e) && e.handled == w.local.handled
    ensures WInv(World(e, Dialled(e, w.conns)))
  {
    hide EInv;
    var w' := World(e, Dialled(e, w.conns));
    EInvSsl(e, []);
    forall c | 0 <= c < |w'.conns|
      ensures ConnOk(w', c)
    {
      LocalConnOk(w, e, w'.conns, c);
    }
    forall s: nat
      ensures LocalHandled(w', s)
    {
      NothingHosted(s);
      HandledUnchanged(w, w', s);
    }
  }

  /** One connection changes: what is left to show. */
  lemma OneConnChanges(w: World, w': World, c: nat)
    requires WInv(w) && c < |w.conns| && |w'.conns| == |w.conns| && |w'.local.ssls| == |w.local.ssls|
    requires EInv(w'.local, []) && w'.local.role == w.local.role && w'.local.handled == w.local.handled
    requires forall d | 0 <= d < |w.conns| && d != c ::
               w'.conns[d] == w.conns[d] && w'.local.ssls[d] == w.local.ssls[d]
    requires ConnOk(w', c)
    requires forall s: nat :: Quiet(w.conns[c], w'.conns[c], s)
    ensures WInv(w')
  {
    hide EInv;
    forall d | 0 <= d < |w'.conns|
      ensures ConnOk(w', d)
    {
      assert d != c ==> ConnOk(w, d);
    }
    forall s: nat
      ensures LocalHandled(w', s)
    {
      assert Quiet(w.conns[c], w'.conns[c], s);
      HandledUnchanged(w, w', s);
    }
  }

  /** A remote end takes a step of its own. */
  lemma RemoteStepKeeps(w: World, c: nat, e: Endpoint)
    requires WInv(w) && c < |w.conns| && EInv(e, []) && Moves(w.conns[c].remote, e)
    requires e.handled == w.conns[c].remote.handled && |e.objs| == |w.conns[c].remote.objs|
    ensures WInv(SetConn(w, c, w.conns[c].(remote := e)))
  {
    hide EInv;
    var w' := SetConn(w, c, w.conns[c].(remote := e));
    assert ConnOk(w, c);
    EInvSsl(w.local, []);
    ConnMoves(w, w', c);
    HostsSame(w.conns[c], w'.conns[c]);
    OneConnChanges(w, w', c);
  }

  // ------------------------------------------------------------- a chunk is read

  lemma ReaderEffectOk(r: Relay, before: Reader, after: Reader)
    requires SslRelayOk(r) && r.startDone
    ensures var r' := ReaderEffect(r, before, after);
            SslRelayOk(r') && r'.offered == r.offered && r'.out == r.out && r'.dials == r.dials
  {
    if after.phase.Ended? {
      StepKeepsInv(r, CallStop);
    } else {
      CountersIrrelevant(r, TIMEOUT);
    }
  }

  lemma UpReadConnOk(w: World, c: nat, up: Reader, r: Relay)
    requires c < |w.conns| && c < |w.local.ssls| && ConnOk(w, c)
    requires ReaderInv(up, w.local.ssls[c].out, w.local.ssls[c].offered) && w.conns[c].up.delivered <= up.delivered
    requires var r0 := w.conns[c].remote.ssls[0];
             SslRelayOk(r) && r.offered == r0.offered && r.out == r0.out && r.dials == r0.dials
    ensures ConnOk(SetConn(w, c, w.conns[c].(up := up, remote := SetSsl(w.conns[c].remote, 0, r))), c)
  {
    hide EInv, ReaderInv, SslRelayOk;
    SetSslKeeps(w.conns[c].remote, 0, r);
  }

  lemma UpReadKeeps(w: World, c: nat, chunk: ReadStep)
    requires WInv(w) && Sessions.Enabled(w, UpRead(c, chunk))
    ensures WInv(Sessions.Do(w, UpRead(c, chunk)))
  {
    hide EInv, ReaderInv, SslRelayOk, LocalHandled;
    var k := w.conns[c];
    assert ConnOk(w, c);
    var up := Read(k.up, w.local.ssls[c].out, chunk);
    var r := ReaderEffect(k.remote.ssls[0], k.up, up);
    ReadKeepsInv(k.up, w.local.ssls[c].out, w.local.ssls[c].offered, chunk);
    ReadDelivers(k.up, w.local.ssls[c].out, chunk);
    EInvSsl(k.remote, []);
    ReaderEffectOk(k.remote.ssls[0], k.up, up);
    UpReadConnOk(w, c, up, r);
    var k' := k.(up := up, remote := SetSsl(k.remote, 0, r));
    HostsSame(k, k');
    OneConnChanges(w, SetConn(w, c, k'), c);
  }

  lemma DownReadConnOk(w: World, w': World, c: nat, down: Reader)
    requires c < |w.conns| && c < |w.local.ssls| && ConnOk(w, c) && c < |w'.local.ssls|
    requires w'.conns == w.conns[c := w.conns[c].(down := down)]
    requires w'.local.ssls[c].out == w.local.ssls[c].out && w'.local.ssls[c].offered == w.local.ssls[c].offered
    requires var r := w.conns[c].remote.ssls[0]; ReaderInv(down, r.out, r.offered)
    requires w.conns[c].down.delivered <= down.delivered
    ensures ConnOk(w', c)
  {
    hide EInv, ReaderInv;
  }

  lemma DownReadKeeps(w: World, c: nat, chunk: ReadStep)
    requires WInv(w) && Sessions.Enabled(w, DownRead(c, chunk))
    ensures WInv(Sessions.Do(w, DownRead(c, chunk)))
  {
    hide EInv, ReaderInv, SslRelayOk, LocalHandled;
    var k := w.conns[c];
    assert ConnOk(w, c);
    var down := Read(k.down, k.remote.ssls[0].out, chunk);
    var r := ReaderEffect(w.local.ssls[c], k.down, down);
    ReadKeepsInv(k.down, k.remote.ssls[0].out, k.remote.ssls[0].offered, chunk);
    ReadDelivers(k.down, k.remote.ssls[0].out, chunk);
    EInvSsl(w.local, []);
    ReaderEffectOk(w.local.ssls[c], k.down, down);
    SetSslKeeps(w.local, c, r);
    var k' := k.(down := down);
    var w' := SetConn(w.(local := SetSsl(w.local, c, r)), c, k');
    DownReadConnOk(w, w', c, down);
    HostsSame(k, k');
    OneConnChanges(w, w', c);
  }

  // -------------------------------------------- a remote end handles a frame

  /** The next frame for the remote end, in the connection's stream. */
  lemma NextUp(w: World, c: nat)
    requires WInv(w) && c < |w.conns| && w.conns[c].upDone < |w.conns[c].up.delivered|
    ensures var k := w.conns[c];
            var f := k.up.delivered[k.upDone];
            && WellFormed(f) && k.remote.handled + [f] == k.up.delivered[..k.upDone + 1]
            && k.remote.handled + [f] <= Frames(w.local.ssls[c].offered)
  {
    hide EInv;
    var k := w.conns[c];
    assert ConnOk(w, c);
    HandledPrefix(w, c);
    var sent := w.local.ssls[c].offered;
    assert k.up.delivered[k.upDone] == sent[k.upDone].frame;
  }

  /** A START_TCP is the first stream frame of its session anywhere. */
  lemma StartIsNew(w: World, c: nat, f: Frame)
    requires WInv(w) && c < |w.conns| && f.cmd == StartTcp
    requires w.conns[c].remote.handled + [f] <= Frames(w.local.ssls[c].offered)
    ensures Stream(w.conns[c].remote.handled, f.session) == []
    ensures var st := Stream(Frames(w.local.ssls[c].offered), f.session);
            st != [] && st[0] == f
  {
    var s := f.session;
    var h := w.conns[c].remote.handled;
    StreamAppend(h, f, s);
    StreamPrefix(h + [f], Frames(w.local.ssls[c].offered), s);
    var st := Stream(Frames(w.local.ssls[c].offered), s);
    assert (Stream(h, s) + [f])[|Stream(h, s)|] == f;
    assert st[|Stream(h, s)|] == f;
    StartIsFirst(w.local, c, s, |Stream(h, s)|);
  }

  /** A remote end has a TCP relay only after it has handled the START_TCP. */
  lemma NotStartedYet(e: Endpoint, s: nat)
    requires EInv(e, []) && e.role == RemoteServer && Stream(e.handled, s) == []
    ensures NoTcp(e, s)
  {
    forall i | 0 <= i < |e.objs|
      ensures Tcp(e.objs[i]) ==> e.objs[i].session != s
    {
      assert ObjOk(e, i, []);
    }
  }

  /** UDP data carries no TCP session's number. */
  lemma UdpIsNotTcp(w: World, c: nat, f: Frame)
    requires WInv(w) && Hypothesis(w) && c < |w.conns|
    requires f in Frames(w.local.ssls[c].offered) && f.cmd == DataUdp
    ensures NoTcp(w.conns[c].remote, f.session)
  {
    OutgoingAt(w.local.ssls, c);
    InPrefix(f, Outgoing(w.local.ssls[..c]), Frames(w.local.ssls[c].offered), Outgoing(w.local.ssls));
    assert Outgoing(w.local.ssls) + [] == Outgoing(w.local.ssls);
    assert UdpOwned(Outgoing(w.local.ssls), w.local.udp.owners.Keys);
    assert NoTcp(w.local, f.session);
    HostedIsLocalOr(w, c, f.session);
  }

  lemma InPrefix(f: Frame, a: seq<Frame>, b: seq<Frame>, whole: seq<Frame>)
    requires a + b <= whole && f in b
    ensures f in whole
  {
    var j :| 0 <= j < |b| && b[j] == f;
    assert (a + b)[|a| + j] == f;
    assert whole[|a| + j] == f;
  }

  lemma HostedIsLocalOr(w: World, c: nat, s: nat)
    requires WInv(w) && c < |w.conns|
    ensures NoTcp(w.conns[c].remote, s) || !NoTcp(w.local, s)
  {
    if Hosts(w.conns[c], s) {
      HostedIsLocal(w, c, s);
    } else {
    }
  }

  lemma UpExpected(w: World, c: nat)
    requires WInv(w) && Hypothesis(w) && c < |w.conns| && w.conns[c].upDone < |w.conns[c].up.delivered|
    ensures Expected(w.conns[c].remote, w.conns[c].up.delivered[w.conns[c].upDone])
  {
    var k := w.conns[c];
    var f := k.up.delivered[k.upDone];
    assert ConnOk(w, c);
    NextUp(w, c);
    if f.cmd == StartTcp {
      StartIsNew(w, c, f);
      NotStartedYet(k.remote, f.session);
    } else if f.cmd == DataUdp {
      assert (k.remote.handled + [f])[|k.remote.handled|] == f;
      UdpIsNotTcp(w, c, f);
    }
  }

  /** Before its START_TCP is handled, a session is hosted nowhere and nothing
      of it has come back. */
  lemma NothingBack(w: World, c: nat, f: Frame)
    requires WInv(w) && c < |w.conns| && f.cmd == StartTcp
    requires w.conns[c].remote.handled + [f] <= Frames(w.local.ssls[c].offered)
    ensures Stream(w.local.handled, f.session) == []
    ensures var k := w.conns[c];
            k.downDone <= |k.down.delivered| && Stream(k.down.delivered[..k.downDone], f.session) == []
  {
    hide EInv;
    var s := f.session;
    var k := w.conns[c];
    assert ConnOk(w, c) && LocalHandled(w, s);
    StartIsNew(w, c, f);
    forall d | 0 <= d < |w.conns|
      ensures !Hosts(w.conns[d], s)
    {
      NotHostedBefore(w, c, d, f);
    }
    HandledPrefix(w, c);
    NotStartedYet(k.remote, s);
    NoRelayNoStream(k.remote, 0, s);
    StreamPrefix(k.down.delivered[..k.downDone], Frames(k.remote.ssls[0].offered), s);
  }

  lemma NotHostedBefore(w: World, c: nat, d: nat, f: Frame)
    requires WInv(w) && c < |w.conns| && d < |w.conns| && f.cmd == StartTcp
    requires Stream(w.conns[c].remote.handled, f.session) == []
    requires var st := Stream(Frames(w.local.ssls[c].offered), f.session); st != [] && st[0] == f
    ensures !Hosts(w.conns[d], f.session)
  {
    var s := f.session;
    assert ConnOk(w, c);
    if Hosts(w.conns[d], s) {
      HostCarriesStart(w, d, s);
      if c < d {
        NothingBeforeStart(w.local, c, d, s);
      } else if d < c {
        NothingBeforeStart(w.local, d, c, s);
      } else {
        NotStartedYet(w.conns[c].remote, s);
      }
    }
  }

  /** Which sessions the connection hosts after its remote end handled f. */
  lemma HostsAfter(e: Endpoint, e': Endpoint, f: Frame, k: Conn, k': Conn, s: nat)
    requires SameObjs(e, e') && NewTcpOnly(e, e', f) && k.remote == e && k'.remote == e'
    ensures Hosts(k, s) ==> Hosts(k', s)
    ensures Hosts(k', s) ==> Hosts(k, s) || (f.cmd == StartTcp && f.session == s)
  {
    if Hosts(k, s) {
      var i :| 0 <= i < |e.objs| && Tcp(e.objs[i]) && e.objs[i].session == s;
      assert Tcp(e'.objs[i]) && e'.objs[i].session == s;
    }
    if Hosts(k', s) {
      var i :| 0 <= i < |e'.objs| && Tcp(e'.objs[i]) && e'.objs[i].session == s;
      if i < |e.objs| {
        assert Tcp(e.objs[i]) && e.objs[i].session == s;
      }
    }
  }

  lemma UpHandledSame(w: World, w': World, c: nat, s: nat)
    requires WInv(w) && c < |w.conns| && |w'.conns| == |w.conns| && w'.local == w.local
    requires forall d | 0 <= d < |w.conns| && d != c :: w'.conns[d] == w.conns[d]
    requires w'.conns[c].down == w.conns[c].down && w'.conns[c].downDone == w.conns[c].downDone
    requires Hosts(w.conns[c], s) ==> Hosts(w'.conns[c], s)
    requires Hosts(w'.conns[c], s) && !Hosts(w.conns[c], s) ==>
               && Stream(w.local.handled, s) == []
               && w.conns[c].downDone <= |w.conns[c].down.delivered|
               && Stream(w.conns[c].down.delivered[..w.conns[c].downDone], s) == []
    ensures LocalHandled(w', s)
  {
    assert LocalHandled(w, s);
    if Hosts(w'.conns[c], s) && !Hosts(w.conns[c], s) {
      forall d | 0 <= d < |w'.conns| && Hosts(w'.conns[d], s) && w'.conns[d].downDone <= |w'.conns[d].down.delivered|
        ensures Stream(w'.local.handled, s) == Stream(w'.conns[d].down.delivered[..w'.conns[d].downDone], s)
      {
      }
    } else {
      HandledUnchanged(w, w', s);
    }
  }

  lemma UpConnOk(w: World, c: nat, w': World)
    requires WInv(w) && Hypothesis(w) && Sessions.Enabled(w, UpHandle(c)) && w' == Sessions.Do(w, UpHandle(c))
    ensures ConnOk(w', c)
  {
    var k := w.conns[c];
    var f := k.up.delivered[k.upDone];
    assert ConnOk(w, c);
    UpExpected(w, c);
    AddResponseKeeps(k.remote, f);
    ResponseMoves(k.remote, f);
    NextUp(w, c);
    DownMoves(k, w'.conns[c]);
  }

  lemma UpHandleKeeps(w: World, c: nat)
    requires WInv(w) && Hypothesis(w) && Sessions.Enabled(w, UpHandle(c))
    ensures WInv(Sessions.Do(w, UpHandle(c)))
  {
    var k := w.conns[c];
    var f := k.up.delivered[k.upDone];
    var w' := Sessions.Do(w, UpHandle(c));
    UpConnOk(w, c, w');
    forall d | 0 <= d < |w'.conns|
      ensures ConnOk(w', d)
    {
      assert d != c ==> ConnOk(w, d);
    }
    forall s: nat
      ensures LocalHandled(w', s)
    {
      UpHandleHandled(w, c, s);
    }
  }

  lemma UpHandleHandled(w: World, c: nat, s: nat)
    requires WInv(w) && Sessions.Enabled(w, UpHandle(c))
    ensures LocalHandled(Sessions.Do(w, UpHandle(c)), s)
  {
    hide EInv, ConnOk, LocalHandled;
    var k := w.conns[c];
    var f := k.up.delivered[k.upDone];
    var w' := Sessions.Do(w, UpHandle(c));
    ResponseMoves(k.remote, f);
    HostsAfter(k.remote, w'.conns[c].remote, f, k, w'.conns[c], s);
    NextUp(w, c);
    DownDone(w);
    if f.cmd == StartTcp && f.session == s {
      NothingBack(w, c, f);
    }
    UpHandledSame(w, w', c, s);
  }

  // -------------------------------------------- the local end handles a frame

  lemma NextDown(w: World, c: nat)
    requires WInv(w) && c < |w.conns| && w.conns[c].downDone < |w.conns[c].down.delivered|
    ensures var k := w.conns[c];
            var f := k.down.delivered[k.downDone];
            && |k.remote.ssls| == 1 && WellFormed(f) && f in Frames(k.remote.ssls[0].offered)
            && k.down.delivered[..k.downDone + 1] == k.down.delivered[..k.downDone] + [f]
  {
    hide EInv;
    var k := w.conns[c];
    assert ConnOk(w, c);
    var sent := k.remote.ssls[0].offered;
    assert k.down.delivered[k.downDone] == sent[k.downDone].frame;
    assert Frames(sent)[k.downDone] == sent[k.downDone].frame;
  }

  /** A stream frame that comes back is of a session the connection hosts. */
  lemma ComesFromHost(w: World, c: nat, f: Frame)
    requires WInv(w) && c < |w.conns| && |w.conns[c].remote.ssls| == 1
    requires f in Frames(w.conns[c].remote.ssls[0].offered) && OfSession(f.session, f)
    ensures Hosts(w.conns[c], f.session)
  {
    var e := w.conns[c].remote;
    assert ConnOk(w, c);
    InStream(Frames(e.ssls[0].offered), f);
    StreamHasRelay(e, 0, f.session);
    var i :| 0 <= i < |e.objs| && Tcp(e.objs[i]) && e.objs[i].session == f.session;
  }

  lemma DownHandledGrows(w: World, w': World, c: nat, f: Frame, s: nat)
    requires WInv(w) && c < |w.conns| && w.conns[c].downDone < |w.conns[c].down.delivered|
    requires f == w.conns[c].down.delivered[w.conns[c].downDone]
    requires w'.local.handled == w.local.handled + [f] && |w'.conns| >= |w.conns|
    requires w'.conns[c] == w.conns[c].(downDone := w.conns[c].downDone + 1)
    requires forall d | 0 <= d < |w.conns| && d != c :: w'.conns[d] == w.conns[d]
    requires forall d | |w.conns| <= d < |w'.conns| :: w'.conns[d] == NEW_CONN
    requires OfSession(s, f) ==> Hosts(w.conns[c], s)
    ensures LocalHandled(w', s)
  {
    assert LocalHandled(w, s);
    StreamAppend(w.local.handled, f, s);
    NextDown(w, c);
    StreamAppend(w.conns[c].down.delivered[..w.conns[c].downDone], f, s);
    forall d | 0 <= d < |w'.conns| && Hosts(w'.conns[d], s) && w'.conns[d].downDone <= |w'.conns[d].down.delivered|
      ensures Stream(w'.local.handled, s) == Stream(w'.conns[d].down.delivered[..w'.conns[d].downDone], s)
    {
      NothingHosted(s);
      assert Hosts(w.conns[d], s);
      if d != c && Hosts(w.conns[c], s) {
        OneHost(w, c, d, s);
      }
    }
    if forall d | 0 <= d < |w'.conns| :: !Hosts(w'.conns[d], s) {
      forall d | 0 <= d < |w.conns|
        ensures !Hosts(w.conns[d], s)
      {
        assert !Hosts(w'.conns[d], s);
      }
    }
  }

  lemma DownConnOk(w: World, e: Endpoint, w': World, c: nat, d: nat)
    requires WInv(w) && c < |w.conns| && w.conns[c].downDone < |w.conns[c].down.delivered|
    requires SslInv(e) && Grown(w.local.ssls, e.ssls)
    requires w' == World(e, Dialled(e, w.conns[c := w.conns[c].(downDone := w.conns[c].downDone + 1)]))
    requires d < |w'.conns|
    ensures ConnOk(w', d)
  {
    hide EInv;
    LocalConnOk(w, e, Dialled(e, w.conns), d);
    assert d != c ==> w'.conns[d] == Dialled(e, w.conns)[d];
  }

  lemma DownExpected(w: World, c: nat, f: Frame)
    requires WInv(w) && c < |w.conns| && w.conns[c].downDone < |w.conns[c].down.delivered|
    requires f == w.conns[c].down.delivered[w.conns[c].downDone]
    ensures Expected(w.local, f) && (OfSession(f.session, f) ==> Hosts(w.conns[c], f.session))
  {
    assert ConnOk(w, c);
    NextDown(w, c);
    RemoteSendsNoStart(w.conns[c].remote, f);
    if OfSession(f.session, f) {
      ComesFromHost(w, c, f);
    }
  }

  lemma DownLocalOk(w: World, c: nat)
    requires WInv(w) && Sessions.Enabled(w, DownHandle(c))
    ensures var e := Sessions.Do(w, DownHandle(c)).local;
            && EInv(e, []) && e.role == w.local.role && Grown(w.local.ssls, e.ssls)
            && e.handled == w.local.handled + [w.conns[c].down.delivered[w.conns[c].downDone]]
  {
    var f := w.conns[c].down.delivered[w.conns[c].downDone];
    DownExpected(w, c, f);
    AddResponseKeeps(w.local, f);
    ResponseMoves(w.local, f);
  }

  lemma DownConnsOk(w: World, e: Endpoint, w': World, c: nat)
    requires WInv(w) && c < |w.conns| && w.conns[c].downDone < |w.conns[c].down.delivered|
    requires SslInv(e) && Grown(w.local.ssls, e.ssls)
    requires w' == World(e, Dialled(e, w.conns[c := w.conns[c].(downDone := w.conns[c].downDone + 1)]))
    ensures |w'.conns| == |e.ssls| && forall d | 0 <= d < |w'.conns| :: ConnOk(w', d)
  {
    forall d | 0 <= d < |w'.conns|
      ensures ConnOk(w', d)
    {
      DownConnOk(w, e, w', c, d);
    }
  }

  lemma DownAllHandled(w: World, e: Endpoint, w': World, c: nat, f: Frame)
    requires WInv(w) && c < |w.conns| && w.conns[c].downDone < |w.conns[c].down.delivered|
    requires f == w.conns[c].down.delivered[w.conns[c].downDone] && e.handled == w.local.handled + [f]
    requires w' == World(e, Dialled(e, w.conns[c := w.conns[c].(downDone := w.conns[c].downDone + 1)]))
    ensures forall s: nat :: LocalHandled(w', s)
  {
    DownExpected(w, c, f);
    forall s: nat
      ensures LocalHandled(w', s)
    {
      DownHandledGrows(w, w', c, f, s);
    }
  }

  lemma DownHandleKeeps(w: World, c: nat)
    requires WInv(w) && Sessions.Enabled(w, DownHandle(c))
    ensures WInv(Sessions.Do(w, DownHandle(c)))
  {
    hide EInv;
    var f := w.conns[c].down.delivered[w.conns[c].downDone];
    var w' := Sessions.Do(w, DownHandle(c));
    DownLocalOk(w, c);
    DownConnsOk(w, w'.local, w', c);
    DownAllHandled(w, w'.local, w', c, f);
  }

  // ----------------------------------------------------------------- any step

  /** An acceptor's new number has no history. */
  lemma NextNumberIsNew(w: World)
    requires WInv(w)
    ensures Datas(w.local.handled, w.local.udp.session) == []
  {
    var s := w.local.udp.session;
    assert LocalHandled(w, s);
    forall c | 0 <= c < |w.conns|
      ensures !Hosts(w.conns[c], s)
    {
      HostedIsLocalOr(w, c, s);
      assert NoTcp(w.local, s);
    }
    DatasOfStream(w.local.handled, s);
  }

  lemma StepKeepsWInv(w: World, st: Sessions.Step)
    requires WInv(w) && Hypothesis(w) && Sessions.Enabled(w, st) && Sessions.Clean(w, st)
    ensures WInv(Sessions.Do(w, st))
  {
    match st
    case AtLocal(s) =>
      NextNumberIsNew(w);
      EndpointStepKeeps(w.local, s);
      StepMoves(w.local, s);
      LocalStepKeeps(w, Endpoints.Do(w.local, s));
    case AtRemote(c, s) =>
      RemoteOwnStep(w, c, s);
    case UpRead(c, chunk) => UpReadKeeps(w, c, chunk);
    case DownRead(c, chunk) => DownReadKeeps(w, c, chunk);
    case UpHandle(c) => UpHandleKeeps(w, c);
    case DownHandle(c) => DownHandleKeeps(w, c);
  }

  /** An accepted connection does not dial, so it cannot drop a frame first. */
  lemma RemoteOwnStep(w: World, c: nat, s: Endpoints.Step)
    requires WInv(w) && c < |w.conns| && Endpoints.Enabled(w.conns[c].remote, s)
    ensures WInv(Sessions.Do(w, AtRemote(c, s)))
  {
    var e := w.conns[c].remote;
    assert ConnOk(w, c);
    RemoteEndKeeps(e, s);
    StepMoves(e, s);
    RemoteStepKeeps(w, c, Endpoints.Do(e, s));
  }

  lemma RemoteEndKeeps(e: Endpoint, s: Endpoints.Step)
    requires EInv(e, []) && e.role == RemoteServer && |e.ssls| == 1 && !e.ssls[0].dials && Endpoints.Enabled(e, s)
    ensures EInv(Endpoints.Do(e, s), [])
  {
    hide EInv, Endpoints.Enabled, Endpoints.Do, Fits, SslClean, SslRelayOk;
    EInvSsl(e, []);
    RemoteIsClean(e, s);
    EndpointStepKeeps(e, s);
  }

  lemma RemoteIsClean(e: Endpoint, s: Endpoints.Step)
    requires e.role == RemoteServer && |e.ssls| == 1 && !e.ssls[0].dials && Endpoints.Enabled(e, s)
    ensures Fits(e, s) && SslClean(e, s) && s != AcceptTcp
  {
  }

  // --------------------------------------------------------------- behaviours

  /** Relays, numbers and their owners are never forgotten, so the hypothesis at
      the end of a behaviour held all along. */
  lemma StepBack(w: World, st: Sessions.Step)
    requires Sessions.Enabled(w, st) && Hypothesis(Sessions.Do(w, st))
    ensures Hypothesis(w)
  {
    var w' := Sessions.Do(w, st);
    match st {
      case AtLocal(s) => StepMoves(w.local, s);
      case DownHandle(c) => ResponseMoves(w.local, w.conns[c].down.delivered[w.conns[c].downDone]);
      case _ =>
    }
    forall i | 0 <= i < |w.local.objs|
      ensures w.local.objs[i].session !in w.local.udp.owners
    {
      assert w'.local.objs[i].session == w.local.objs[i].session;
    }
  }

  lemma {:induction false} HeldBefore(ws: seq<World>, sts: seq<Sessions.Step>, i: nat)
    requires Behaviour(ws, sts) && i <= |sts| && Hypothesis(ws[|sts|])
    ensures Hypothesis(ws[i])
    decreases |sts| - i
  {
    hide Next, Hypothesis;
    if i < |sts| {
      HeldBefore(ws, sts, i + 1);
      NextBack(ws[i], sts[i], ws[i + 1]);
    }
  }

  lemma NextBack(w: World, st: Sessions.Step, w': World)
    requires Next(w, st, w') && Hypothesis(w')
    ensures Hypothesis(w)
  {
    hide Sessions.Enabled, Sessions.Do, Hypothesis;
    StepBack(w, st);
  }

  lemma NextKeeps(w: World, st: Sessions.Step, w': World)
    requires Next(w, st, w') && Sessions.Clean(w, st) && WInv(w) && Hypothesis(w)
    ensures WInv(w')
  {
    hide Sessions.Enabled, Sessions.Clean, Sessions.Do, Hypothesis, WInv;
    StepKeepsWInv(w, st);
  }

  lemma {:induction false} InvariantAt(ws: seq<World>, sts: seq<Sessions.Step>, i: nat)
    requires CleanBehaviour(ws, sts) && i <= |sts| && WInv(ws[0]) && Hypothesis(ws[|sts|])
    ensures WInv(ws[i])
    decreases i
  {
    hide Next, Hypothesis, WInv;
    if i > 0 {
      InvariantAt(ws, sts, i - 1);
      HeldBefore(ws, sts, i - 1);
      NextKeeps(ws[i - 1], sts[i - 1], ws[i]);
    }
  }

  /** Every behaviour of the system keeps the invariant in all of its states. */
  lemma {:induction false} Always(role: Role, ws: seq<World>, sts: seq<Sessions.Step>, i: nat)
    requires CleanBehaviour(ws, sts) && role != RemoteServer && ws[0] == Initial(role)
    requires Hypothesis(ws[|sts|]) && i <= |sts|
    ensures WInv(ws[i])
  {
    hide Next, Hypothesis, WInv;
    NewLocalOk(role);
    InvariantAt(ws, sts, i);
  }
}
