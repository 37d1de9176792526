/** The exchange of a session's frames comes to an end: without input from
    outside, every run of the whole system is finite. */
module Termination {
  import opened Bytes
  import opened RelayData
  import opened RelayQueue
  import opened SslReader
  import opened Endpoints
  import opened EndpointInv
  import opened EndpointSteps
  import opened Sessions
  import opened EndMoves
  import opened Shape
  import opened SystemShape
  import opened Collisions
  import opened Potential
  import opened EndCosts

  predicate Quiescing(st: Sessions.Step) {
    match st
    case AtLocal(s) => Unprompted(s)
    case AtRemote(_, s) => Unprompted(s)
    case _ => true
  }

  /** A read loop may fail once, and stops its relay then. */
  function LoopLeft(rd: Reader): nat {
    if rd.phase.Ended? then 0 else 2
  }

  /** What a read loop and the manager behind it have done already. */
  function Credit(rd: Reader, done: nat): nat
    requires done <= |rd.delivered|
  {
    AllHandling(rd.delivered[..done]) + rd.pos
  }

  predicate Counted(k: Conn) {
    k.upDone <= |k.up.delivered| && k.downDone <= |k.down.delivered|
  }

  function ConnCost(k: Conn): int
  {
    if !Counted(k) then 0
    else EndCost(k.remote) + LoopLeft(k.up) + LoopLeft(k.down) - Credit(k.up, k.upDone) - Credit(k.down, k.downDone)
  }

  function ConnCosts(conns: seq<Conn>): (s: seq<int>)
    ensures |s| == |conns| && forall c | 0 <= c < |s| :: s[c] == ConnCost(conns[c])
  {
    seq(|conns|, c requires 0 <= c < |conns| => ConnCost(conns[c]))
  }

  /** What is left to do in the whole system. */
  function Work(w: World): int {
    EndCost(w.local) + Sum(ConnCosts(w.conns))
  }

  lemma NewConnCost()
    ensures ConnCost(NEW_CONN) == DIAL
  {
    var e := NewRemote();
    assert Frames([]) == [] && Sends([]) == [];
    assert ObjCosts(e) == [] && SslCosts(e.ssls) == [2] && SenderCosts(e.udp.senders) == [0];
    SumAppend([], 2);
    SumAppend([], 0);
    assert [] + [2] == [2] && [] + [0] == [0];
    assert NEW_READER.delivered[..0] == [];
  }

  lemma AddConnCost(conns: seq<Conn>, k: Conn)
    ensures Sum(ConnCosts(conns + [k])) == Sum(ConnCosts(conns)) + ConnCost(k)
  {
    assert ConnCosts(conns + [k]) == ConnCosts(conns) + [ConnCost(k)];
    SumAppend(ConnCosts(conns), ConnCost(k));
  }

  lemma DialledCost(e: Endpoint, conns: seq<Conn>)
    requires |conns| <= |e.ssls| <= |conns| + 1
    ensures Sum(ConnCosts(Dialled(e, conns))) == Sum(ConnCosts(conns)) + DIAL * (|e.ssls| - |conns|)
  {
    if |e.ssls| > |conns| {
      NewConnCost();
      AddConnCost(conns, NEW_CONN);
    } else {
    }
  }

  lemma SetConnCost(conns: seq<Conn>, c: nat, k: Conn, d: int)
    requires c < |conns| && ConnCost(k) <= ConnCost(conns[c]) + d
    ensures Sum(ConnCosts(conns[c := k])) <= Sum(ConnCosts(conns)) + d
  {
    SumChange(ConnCosts(conns), ConnCosts(conns[c := k]), c, d);
  }

  // -------------------------------------------------------------------- steps

  lemma LocalStepCost(w: World, s: Endpoints.Step)
    requires SysShape(w) && Endpoints.Enabled(w.local, s) && Unprompted(s)
    ensures Work(Sessions.Do(w, AtLocal(s))) < Work(w)
  {
    hide Shaped, ConnShape;
    var e := Endpoints.Do(w.local, s);
    EndpointStepCost(w.local, s);
    StepMoves(w.local, s);
    DialledCost(e, w.conns);
  }

  lemma RemoteStepConn(k: Conn, s: Endpoints.Step)
    requires Shaped(k.remote) && Remote(k.remote) && Endpoints.Enabled(k.remote, s) && Unprompted(s) && Counted(k)
    ensures ConnCost(k.(remote := Endpoints.Do(k.remote, s))) < ConnCost(k)
  {
    hide Shaped;
    EndpointStepCost(k.remote, s);
    StepMoves(k.remote, s);
  }

  lemma RemoteStepCost(w: World, c: nat, s: Endpoints.Step)
    requires SysShape(w) && c < |w.conns| && Endpoints.Enabled(w.conns[c].remote, s) && Unprompted(s)
    ensures Work(Sessions.Do(w, AtRemote(c, s))) < Work(w)
  {
    hide Shaped, ReaderInv, Endpoints.Do, Endpoints.Enabled;
    var k := w.conns[c];
    assert ConnShape(k, w.local.ssls[c]);
    RemoteStepConn(k, s);
    SetConnCost(w.conns, c, k.(remote := Endpoints.Do(k.remote, s)), -1);
  }

  /** A read moves on in the stream, or is the loop's last. */
  lemma ReadCost(rd: Reader, wire: seq<byte>, chunk: ReadStep, done: nat)
    requires CanRead(rd, wire, chunk) && done <= |rd.delivered|
    ensures var rd' := Read(rd, wire, chunk);
            && done <= |rd'.delivered|
            && LoopLeft(rd') - Credit(rd', done) + (if rd'.phase.Ended? then 1 else 0) < LoopLeft(rd) - Credit(rd, done)
  {
    var rd' := Read(rd, wire, chunk);
    ReadDelivers(rd, wire, chunk);
    assert rd'.delivered[..done] == rd.delivered[..done];
    match chunk
    case Failed =>
    case Chunk(k) =>
      assert rd'.pos == rd.pos + k by {
        ReadMoves(rd, wire, k);
      }
  }

  lemma ReadMoves(rd: Reader, wire: seq<byte>, k: nat)
    requires CanRead(rd, wire, Chunk(k))
    ensures Read(rd, wire, Chunk(k)).pos == rd.pos + k
  {
    if rd.phase.InHeader? && k == HEADER_SIZE {
      var h := DecodeHeader(wire[rd.pos..rd.pos + k]);
      if h.len > READ_BUFFER_SIZE {} else if h.len == 0 {} else {}
    } else {
    }
  }

  lemma ReaderEffectCost(r: Relay, before: Reader, after: Reader)
    ensures SslCost(ReaderEffect(r, before, after)) <= SslCost(r) + if after.phase.Ended? then 1 else 0
  {
    if after.phase.Ended? {
    } else {
    }
  }

  lemma UpMovesConn(k: Conn, up: Reader, e: Endpoint, d: int)
    requires Counted(k) && k.upDone <= |up.delivered| && EndCost(e) <= EndCost(k.remote) + d
    requires LoopLeft(up) - Credit(up, k.upDone) + d < LoopLeft(k.up) - Credit(k.up, k.upDone)
    ensures ConnCost(k.(up := up, remote := e)) < ConnCost(k)
  {
  }

  lemma DownMovesConn(k: Conn, down: Reader, d: int)
    requires Counted(k) && k.downDone <= |down.delivered|
    requires LoopLeft(down) - Credit(down, k.downDone) + d < LoopLeft(k.down) - Credit(k.down, k.downDone)
    ensures ConnCost(k.(down := down)) < ConnCost(k) - d
  {
  }

  lemma UpReadConn(k: Conn, wire: seq<byte>, chunk: ReadStep)
    requires Counted(k) && CanRead(k.up, wire, chunk) && |k.remote.ssls| == 1
    ensures var up := Read(k.up, wire, chunk);
            ConnCost(k.(up := up, remote := SetSsl(k.remote, 0, ReaderEffect(k.remote.ssls[0], k.up, up)))) < ConnCost(k)
  {
    var up := Read(k.up, wire, chunk);
    var d := if up.phase.Ended? then 1 else 0;
    ReadCost(k.up, wire, chunk, k.upDone);
    var r := ReaderEffect(k.remote.ssls[0], k.up, up);
    ReaderEffectCost(k.remote.ssls[0], k.up, up);
    SslsCost(k.remote, 0, r, d);
    UpMovesConn(k, up, SetSsl(k.remote, 0, r), d);
  }

  lemma UpReadCost(w: World, c: nat, chunk: ReadStep)
    requires SysShape(w) && Sessions.Enabled(w, UpRead(c, chunk))
    ensures Work(Sessions.Do(w, UpRead(c, chunk))) < Work(w)
  {
    hide Shaped, ReaderInv;
    assert ConnShape(w.conns[c], w.local.ssls[c]);
    UpReadConn(w.conns[c], w.local.ssls[c].out, chunk);
    SetConnCost(w.conns, c, Sessions.Do(w, UpRead(c, chunk)).conns[c], -1);
  }

  lemma DownReadCost(w: World, c: nat, chunk: ReadStep)
    requires SysShape(w) && Sessions.Enabled(w, DownRead(c, chunk))
    ensures Work(Sessions.Do(w, DownRead(c, chunk))) < Work(w)
  {
    hide Shaped, ReaderInv;
    var k := w.conns[c];
    assert ConnShape(w.conns[c], w.local.ssls[c]);
    var wire := k.remote.ssls[0].out;
    var down := Read(k.down, wire, chunk);
    var d := if down.phase.Ended? then 1 else 0;
    ReadCost(k.down, wire, chunk, k.downDone);
    DownMovesConn(k, down, d);
    var r := ReaderEffect(w.local.ssls[c], k.down, down);
    ReaderEffectCost(w.local.ssls[c], k.down, down);
    SslsCost(w.local, c, r, d);
    SetConnCost(w.conns, c, k.(down := down), -1 - d);
  }

  lemma DoneCost(rd: Reader, done: nat)
    requires done < |rd.delivered|
    ensures Credit(rd, done + 1) == Credit(rd, done) + Handling(rd.delivered[done])
  {
    assert rd.delivered[..done + 1] == rd.delivered[..done] + [rd.delivered[done]];
    HandlingAppend(rd.delivered[..done], rd.delivered[done]);
  }

  lemma UpHandleConn(k: Conn, e: Endpoint)
    requires Counted(k) && k.upDone < |k.up.delivered|
    requires EndCost(e) < EndCost(k.remote) + Handling(k.up.delivered[k.upDone])
    ensures ConnCost(k.(upDone := k.upDone + 1, remote := e)) < ConnCost(k)
  {
    DoneCost(k.up, k.upDone);
  }

  lemma UpHandleCost(w: World, c: nat)
    requires SysShape(w) && Sessions.Enabled(w, UpHandle(c))
    ensures Work(Sessions.Do(w, UpHandle(c))) < Work(w)
  {
    hide Shaped, ReaderInv, AddResponse, CanHandle;
    var k := w.conns[c];
    var f := k.up.delivered[k.upDone];
    var e := AddResponse(k.remote, f);
    assert ConnShape(k, w.local.ssls[c]);
    SslOf(w.local, c);
    NextFrame(k.up, w.local.ssls[c], k.upDone, false);
    RawOnly(k.remote);
    ResponseCost(k.remote, f);
    ResponseMoves(k.remote, f);
    UpHandleConn(k, e);
    SetConnCost(w.conns, c, k.(upDone := k.upDone + 1, remote := e), -1);
  }

  lemma DownHandleConn(k: Conn)
    requires Counted(k) && k.downDone < |k.down.delivered|
    ensures ConnCost(k.(downDone := k.downDone + 1)) == ConnCost(k) - Handling(k.down.delivered[k.downDone])
  {
    DoneCost(k.down, k.downDone);
  }

  lemma IsCounted(k: Conn, r: Relay)
    requires ConnShape(k, r)
    ensures Counted(k)
  {
  }

  lemma DownWork(w: World, c: nat, e: Endpoint)
    requires c < |w.conns| == |w.local.ssls| <= |e.ssls| <= |w.local.ssls| + 1
    requires Counted(w.conns[c]) && w.conns[c].downDone < |w.conns[c].down.delivered|
    requires EndCost(e) + Dials(w.local, e) < EndCost(w.local) + Handling(w.conns[c].down.delivered[w.conns[c].downDone])
    ensures var k := w.conns[c].(downDone := w.conns[c].downDone + 1);
            Work(World(e, Dialled(e, w.conns[c := k]))) < Work(w)
  {
    hide EndCost, Handling, ConnCost;
    var k := w.conns[c];
    DownHandleConn(k);
    SetConnCost(w.conns, c, k.(downDone := k.downDone + 1), -(Handling(k.down.delivered[k.downDone]) as int));
    DialledCost(e, w.conns[c := k.(downDone := k.downDone + 1)]);
  }

  lemma DownHandleCost(w: World, c: nat)
    requires SysShape(w) && Sessions.Enabled(w, DownHandle(c))
    ensures Work(Sessions.Do(w, DownHandle(c))) < Work(w)
  {
    hide Shaped, ConnShape, AddResponse, Work, EndCost, Handling;
    var k := w.conns[c];
    var f := k.down.delivered[k.downDone];
    IsCounted(k, w.local.ssls[c]);
    DownNext(w, c);
    RawOnly(w.local);
    ResponseCost(w.local, f);
    ResponseMoves(w.local, f);
    DownWork(w, c, AddResponse(w.local, f));
  }

  lemma StepCost(w: World, st: Sessions.Step)
    requires SysShape(w) && Sessions.Enabled(w, st) && Quiescing(st)
    ensures Work(Sessions.Do(w, st)) < Work(w)
  {
    hide SysShape;
    match st
    case AtLocal(s) => LocalStepCost(w, s);
    case AtRemote(c, s) => RemoteStepCost(w, c, s);
    case UpRead(c, chunk) => UpReadCost(w, c, chunk);
    case DownRead(c, chunk) => DownReadCost(w, c, chunk);
    case UpHandle(c) => UpHandleCost(w, c);
    case DownHandle(c) => DownHandleCost(w, c);
  }

  // --------------------------------------------------------------------- runs

  lemma CreditBound(rd: Reader, done: nat, r: Relay)
    requires Reads(rd, r, done)
    ensures Credit(rd, done) <= SslCost(r)
  {
    assert Frames(r.accepted[..|rd.delivered|]) <= Frames(r.accepted);
    HandlingPrefix(rd.delivered[..done], Frames(r.accepted));
  }

  lemma EndCostCovers(e: Endpoint)
    ensures EndCost(e) >= Sum(SslCosts(e.ssls)) >= 0
  {
    SumNat(ObjCosts(e));
    SumNat(SslCosts(e.ssls));
    SumNat(SenderCosts(e.udp.senders));
  }

  lemma ConnCovered(k: Conn, r: Relay)
    requires ConnShape(k, r)
    ensures SslCost(r) + ConnCost(k) >= 0
  {
    hide Shaped;
    CreditBound(k.up, k.upDone, r);
    CreditBound(k.down, k.downDone, k.remote.ssls[0]);
    EndCostCovers(k.remote);
    assert SslCosts(k.remote.ssls) == [] + [SslCost(k.remote.ssls[0])];
    SumAppend([], SslCost(k.remote.ssls[0]));
  }

  lemma WorkNat(w: World)
    requires SysShape(w)
    ensures Work(w) >= 0
  {
    hide Shaped, ConnShape;
    EndCostCovers(w.local);
    forall c | 0 <= c < |w.conns|
      ensures SslCosts(w.local.ssls)[c] + ConnCosts(w.conns)[c] >= 0
    {
      ConnCovered(w.conns[c], w.local.ssls[c]);
    }
    SumPair(SslCosts(w.local.ssls), ConnCosts(w.conns));
  }

  /** Such a step gives out no number. */
  lemma QuietStep(w: World, st: Sessions.Step)
    requires SysShape(w) && Sessions.Enabled(w, st) && Quiescing(st)
    ensures Sessions.Do(w, st).local.udp.session == w.local.udp.session
  {
    match st
    case AtLocal(s) => MostStepsAddNothing(w.local, s);
    case DownHandle(c) =>
      DownNext(w, c);
      ResponseAddsNothing(w.local, w.conns[c].down.delivered[w.conns[c].downDone]);
    case _ =>
  }

  lemma NextCost(w: World, st: Sessions.Step, w': World)
    requires Next(w, st, w') && SysShape(w) && NoWrap(w) && Quiescing(st)
    ensures Work(w') < Work(w) && SysShape(w') && NoWrap(w')
  {
    hide Sessions.Enabled, Sessions.Do, SysShape, Work, Quiescing;
    NextShape(w, st, w');
    StepCost(w, st);
    QuietStep(w, st);
  }

  /** Without input from outside, every behaviour ends: from state n on it can
      take no more steps than there is work left in that state. */
  lemma {:induction false} EveryRunEnds(ws: seq<World>, sts: seq<Sessions.Step>, n: nat)
    requires Behaviour(ws, sts) && n <= |sts| && SysShape(ws[n]) && NoWrap(ws[n])
    requires forall i | n <= i < |sts| :: Quiescing(sts[i])
    ensures |sts| - n <= Work(ws[n])
    decreases |sts| - n
  {
    hide Next, NoWrap, SysShape, Work;
    if n == |sts| {
      WorkNat(ws[n]);
    } else {
      NextCost(ws[n], sts[n], ws[n + 1]);
      EveryRunEnds(ws, sts, n + 1);
    }
  }

  lemma StartOf(ws: seq<World>, sts: seq<Sessions.Step>, n: nat)
    requires Behaviour(ws, sts) && n <= |sts|
    ensures Behaviour(ws[..n + 1], sts[..n])
  {
    hide Next;
    forall i | 0 <= i < n
      ensures Next(ws[..n + 1][i], sts[..n][i], ws[..n + 1][i + 1])
    {
      assert Next(ws[i], sts[i], ws[i + 1]);
    }
  }

  /** The same from the start, after n steps in which the outside took part. */
  lemma {:induction false} ExchangeEnds(role: Role, ws: seq<World>, sts: seq<Sessions.Step>, n: nat)
    requires Behaviour(ws, sts) && role != RemoteServer && ws[0] == Initial(role)
    requires n <= |sts| && NoWrap(ws[n]) && forall i | n <= i < |sts| :: Quiescing(sts[i])
    ensures |sts| - n <= Work(ws[n])
  {
    hide Next, NoWrap, SysShape, Work;
    StartOf(ws, sts, n);
    AlwaysShaped(role, ws[..n + 1], sts[..n], n);
    EveryRunEnds(ws, sts, n);
  }
}
