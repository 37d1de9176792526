/** What holds of a relay's send queue in every run. */
module QueueTheorems {
  import opened Bytes
  import opened RelayData
  import opened RelayQueue

  lemma {:induction false} RunSplit(r: Relay, a: seq<Event>, b: seq<Event>)
    ensures Run(r, a + b) <==> Run(r, a) && Run(After(r, a), b)
    ensures Run(r, a + b) ==> After(r, a + b) == After(After(r, a), b)
    decreases |a|
  {
    if a == [] {
      assert a + b == b;
    } else {
      assert (a + b)[1..] == a[1..] + b;
      if CanHappen(r, a[0]) {
        RunSplit(Happen(r, a[0]), a[1..], b);
      }
    }
  }

  lemma RunOne(r: Relay, e: Event)
    ensures Run(r, [e]) <==> CanHappen(r, e)
    ensures CanHappen(r, e) ==> After(r, [e]) == Happen(r, e)
  {
    assert [e][1..] == [];
    if CanHappen(r, e) {
      assert Run(Happen(r, e), []);
    }
  }

  // ------------------------------------------------------ safety of the queue

  /** In every interleaving: one drain at most; what was accepted is what was
      written followed by the queue; the socket has all completed writes and at
      most the accepted bytes, in order; an idle INIT relay has nothing left in
      its queue; what was offered is accounted for to the byte. */
  lemma {:induction false} EveryRun(kind: Kind, dials: bool, es: seq<Event>)
    requires Run(Fresh(kind, dials), es)
    ensures var r := After(Fresh(kind, dials), es);
            && |r.writers| <= 1
            && r.accepted == r.written + r.queue
            && Flatten(r.written) <= r.out <= Flatten(r.accepted)
            && (r.state == Init && r.spawned == 0 ==> r.queue == [] && r.writers == [] && r.written == r.accepted)
            && |Flatten(r.offered)| == |Flatten(r.accepted)| + |Flatten(Sends(r.inbox))| + r.missed
  {
    InitFresh(kind, dials);
    RunKeepsCore(Fresh(kind, dials), es);
    OutPrefix(After(Fresh(kind, dials), es));
  }

  /** In every run in which no dial completes after a frame was dropped, the
      socket has a prefix of the offered bytes. */
  lemma {:induction false} EveryCleanRun(kind: Kind, dials: bool, es: seq<Event>)
    requires Run(Fresh(kind, dials), es) && CleanRun(Fresh(kind, dials), es)
    ensures After(Fresh(kind, dials), es).out <= Flatten(After(Fresh(kind, dials), es).offered)
  {
    InitFresh(kind, dials);
    RunKeepsInv(Fresh(kind, dials), es);
  }

  /** Nothing is left for the relay's own strand and socket to do. */
  ghost predicate Settled(r: Relay) {
    && r.startDone
    && !Enabled(r, Receive) && !Enabled(r, RunSpawned) && !Enabled(r, RunStop)
    && (forall i, k :: !Enabled(r, Accept(i, k)))
    && (forall i :: !Enabled(r, WriteDone(i)))
  }

  /** After any run, a relay whose socket is still open comes to rest only once
      every accepted byte has been written, which is every offered byte unless
      one was dropped: no wake-up is lost. */
  lemma {:induction false} SettledMeansDelivered(kind: Kind, dials: bool, es: seq<Event>)
    requires Run(Fresh(kind, dials), es)
    requires After(Fresh(kind, dials), es).sock == Open && Settled(After(Fresh(kind, dials), es))
    ensures var r := After(Fresh(kind, dials), es);
            && r.state == Init && r.queue == [] && r.written == r.accepted && r.out == Flatten(r.accepted)
            && (!r.lost ==> r.written == r.offered) && (r.missed == 0 ==> r.out == Flatten(r.offered))
  {
    InitFresh(kind, dials);
    RunKeepsCore(Fresh(kind, dials), es);
    OpenWriterCanMove(After(Fresh(kind, dials), es));
  }

  lemma OpenWriterCanMove(r: Relay)
    requires Core(r) && r.sock == Open
    ensures r.writers != [] ==> Enabled(r, WriteDone(0)) || Enabled(r, Accept(0, 1))
  {
  }

  // ------------------------------------------------------------- after a stop

  /** No start coroutine is left that could open the socket again. */
  predicate Final(r: Relay) {
    r.sock == Closed && (r.startDone || !r.dials)
  }

  /** Stop is final for bytes: from then on the socket takes none, in any
      interleaving, whatever the drain does to `state`. */
  lemma {:induction false} StopIsFinal(r: Relay, es: seq<Event>)
    requires Final(r) && Run(r, es)
    ensures After(r, es).out == r.out && Final(After(r, es))
    decreases |es|
  {
    if es != [] {
      FinalStep(r, es[0]);
      StopIsFinal(Happen(r, es[0]), es[1..]);
    }
  }

  lemma FinalStep(r: Relay, e: Event)
    requires Final(r) && CanHappen(r, e)
    ensures Happen(r, e).out == r.out && Final(Happen(r, e))
  {
    match e
    case Internal(st) => StepFrame(r, st);
    case Posted(m) => if m.Send? {} else {}
    case Refused(b) =>
    case Tick => if r.timeout == 1 {} else {}
    case Reset =>
  }

  /** Exactly when a closed socket stays closed: a relay that dials and was
      stopped while still resolving or connecting can be revived. */
  lemma ClosedForGood(r: Relay)
    requires r.sock == Closed
    ensures (forall es | Run(r, es) :: After(r, es).sock == Closed) <==> Final(r)
  {
    if Final(r) {
      forall es | Run(r, es)
        ensures After(r, es).sock == Closed
      {
        StopIsFinal(r, es);
      }
    } else {
      var es := [Internal(StartOk)];
      RunOne(r, es[0]);
      assert Run(r, es) && After(r, es).sock == Open;
    }
  }

  /** STOP is left only by the drain's last completed write, which stores INIT
      over it; every other step of a started relay keeps it. */
  lemma StopAbsorbingIff(r: Relay, st: Step)
    requires Core(r) && r.state == Stop && r.startDone && Enabled(r, st)
    ensures Apply(r, st).state == Stop <==> !(st.WriteDone? && |r.queue| == 1)
    ensures Apply(r, st).state in {Stop, Init}
  {
  }

  lemma StopAbsorbingEvent(r: Relay, e: Event)
    requires Core(r) && r.state == Stop && r.startDone && CanHappen(r, e)
    requires !(e.Internal? && e.step.WriteDone?)
    ensures Happen(r, e).state == Stop && Happen(r, e).startDone
  {
    match e
    case Internal(st) => StopAbsorbingIff(r, st);
    case Posted(m) =>
    case Refused(b) =>
    case Tick => if r.timeout == 1 {} else {}
    case Reset =>
  }

  /** When the write in flight fails after the close, STOP is absorbing. */
  lemma {:induction false} StopAbsorbing(r: Relay, es: seq<Event>)
    requires Core(r) && r.state == Stop && r.startDone && Run(r, es)
    requires forall i | 0 <= i < |es| :: !(es[i].Internal? && es[i].step.WriteDone?)
    ensures After(r, es).state == Stop
    decreases |es|
  {
    if es != [] {
      EventKeepsCore(r, es[0]);
      StopAbsorbingEvent(r, es[0]);
      assert forall i | 0 <= i < |es[1..]| :: es[1..][i] == es[i + 1];
      StopAbsorbing(Happen(r, es[0]), es[1..]);
    }
  }

  // ---------------------------------------------- dialling after a lost frame

  /** Whatever happens from here on, the socket's bytes are a prefix of what was
      offered. */
  ghost predicate StaysWhole(r: Relay) {
    forall es | Run(r, es) :: After(r, es).out <= Flatten(After(r, es).offered)
  }

  /** The frames in front of the first pending stop. */
  function BeforeHalt(ms: seq<Message>): seq<Buf> {
    if ms == [] || ms[0] == Halt then [] else [ms[0].buf] + BeforeHalt(ms[1..])
  }

  /** All that a relay can still write if a stop is pending. */
  function LastBytes(accepted: seq<Buf>, inbox: seq<Message>): seq<byte> {
    Flatten(accepted + BeforeHalt(inbox))
  }

  lemma {:induction false} BeforeHaltPost(ms: seq<Message>, m: Message)
    ensures Halt in ms ==> BeforeHalt(ms + [m]) == BeforeHalt(ms)
    ensures Halt !in ms ==> BeforeHalt(ms) == Sends(ms)
  {
    if ms != [] {
      assert (ms + [m])[1..] == ms[1..] + [m];
      assert ms == [ms[0]] + ms[1..];
      BeforeHaltPost(ms[1..], m);
    }
  }

  // -- safe: nothing was dropped, or a pending stop comes before any harm

  ghost predicate SafeWhole(r: Relay) {
    Core(r) && r.startDone && (r.missed > 0 ==> r.sock == Closed) && r.out <= Flatten(r.offered)
  }

  lemma SafeWholeStep(r: Relay, e: Event)
    requires SafeWhole(r) && CanHappen(r, e)
    ensures SafeWhole(Happen(r, e))
  {
    hide Core, Apply, Enabled, Flatten;
    EventKeepsCore(r, e);
    OfferedGrows(r, e);
    StoppedIsClosed(r);
    if e.Internal? {
      InternalWhole(r, e.step);
    } else {
      OutsideStep(r, e);
    }
  }

  lemma InternalWhole(r: Relay, st: Step)
    requires SafeWhole(r) && Enabled(r, st) && Core(Apply(r, st)) && Flatten(r.offered) <= Flatten(Apply(r, st).offered)
    ensures SafeWhole(Apply(r, st))
  {
    hide Core, Flatten;
    match st
    case Accept(i, k) =>
      OutPrefix(Apply(r, st));
      AcceptedPrefix(Apply(r, st));
    case Receive => LossCloses(r);
    case _ =>
      StepFrame(r, st);
      StepLosesNothing(r, st);
  }

  /** What comes from outside takes no bytes out. */
  lemma OutsideStep(r: Relay, e: Event)
    requires CanHappen(r, e) && !e.Internal? && (r.state == Stop ==> r.sock == Closed)
    ensures var r' := Happen(r, e);
            && r'.out == r.out && r'.startDone == r.startDone && r'.sock == r.sock
            && (r.missed > 0 ==> r'.missed > 0) && (r'.missed > 0 ==> r.missed > 0 || r'.sock == Closed)
  {
    match e
    case Posted(m) => if m.Send? {} else {}
    case Refused(b) =>
    case Tick => if r.timeout == 1 {} else {}
    case Reset =>
  }

  lemma StoppedIsClosed(r: Relay)
    requires Core(r)
    ensures r.state == Stop ==> r.sock == Closed
  {
  }

  lemma LossCloses(r: Relay)
    requires Core(r) && r.inbox != [] && (r.missed > 0 ==> r.sock == Closed)
    ensures var r' := Apply(r, Receive);
            r'.out == r.out && r'.startDone == r.startDone && (r'.missed > 0 ==> r'.sock == Closed)
  {
    ReceiveSame(r);
    match r.inbox[0]
    case Halt =>
    case Send(b) => if r.state == Stop {} else {}
  }

  lemma OfferedGrows(r: Relay, e: Event)
    requires CanHappen(r, e)
    ensures Flatten(r.offered) <= Flatten(Happen(r, e).offered)
  {
    match e {
      case Internal(st) => StepFrame(r, st);
      case Posted(m) => if m.Send? {} else {}
      case Refused(b) =>
      case Tick => if r.timeout == 1 {} else {}
      case Reset =>
    }
    FlattenPrefix(r.offered, Happen(r, e).offered);
  }

  lemma {:induction false} SafeWholeRun(r: Relay, es: seq<Event>)
    requires SafeWhole(r) && Run(r, es)
    ensures After(r, es).out <= Flatten(After(r, es).offered)
    decreases |es|
  {
    if es != [] {
      SafeWholeStep(r, es[0]);
      SafeWholeRun(Happen(r, es[0]), es[1..]);
    }
  }

  predicate HaltAhead(r: Relay, last: seq<byte>) {
    r.startDone && r.out <= last && (r.sock == Closed || (Halt in r.inbox && LastBytes(r.accepted, r.inbox) == last))
  }

  ghost predicate SafeUntilHalt(r: Relay, last: seq<byte>) {
    Core(r) && HaltAhead(r, last) && last <= Flatten(r.offered)
  }

  lemma SafeUntilHaltStep(r: Relay, e: Event, last: seq<byte>)
    requires SafeUntilHalt(r, last) && CanHappen(r, e)
    ensures SafeUntilHalt(Happen(r, e), last)
  {
    hide Core, LastBytes;
    EventKeepsCore(r, e);
    OfferedGrows(r, e);
    if e.Internal? {
      InternalSafe(r, e.step, last);
    } else {
      OutsideSafe(r, e, last);
    }
  }

  lemma InternalSafe(r: Relay, st: Step, last: seq<byte>)
    requires Core(r) && HaltAhead(r, last) && Enabled(r, st) && Core(Apply(r, st))
    ensures HaltAhead(Apply(r, st), last)
  {
    hide Core, LastBytes;
    match st
    case Accept(i, k) => AcceptSafe(r, i, k, last);
    case Receive => ReceiveSafe(r, last);
    case _ => OtherStepSafe(r, st);
  }

  lemma OutsideSafe(r: Relay, e: Event, last: seq<byte>)
    requires Core(r) && HaltAhead(r, last) && CanHappen(r, e) && !e.Internal?
    ensures HaltAhead(Happen(r, e), last)
  {
    hide Core, LastBytes, BeforeHalt;
    match e
    case Posted(m) => MessageSafe(r, m, last);
    case Refused(b) => StoppedIsClosed(r);
    case Tick => if r.timeout == 1 { MessageSafe(r.(timeout := 0), Halt, last); } else {}
    case Reset =>
  }

  lemma MessageSafe(r: Relay, m: Message, last: seq<byte>)
    requires HaltAhead(r, last)
    ensures HaltAhead(Post(r, m), last)
  {
    hide LastBytes;
    if r.sock == Closed {
      if m.Send? {} else {}
    } else {
      PostSafe(r.accepted, r.inbox, m);
    }
  }

  lemma AcceptSafe(r: Relay, i: nat, k: nat, last: seq<byte>)
    requires Core(r) && Enabled(r, Accept(i, k)) && Core(Apply(r, Accept(i, k)))
    requires Halt in r.inbox && LastBytes(r.accepted, r.inbox) == last
    ensures Apply(r, Accept(i, k)).out <= last
  {
    OutPrefix(Apply(r, Accept(i, k)));
    FlattenSplit(r.accepted, BeforeHalt(r.inbox));
  }

  lemma PostSafe(accepted: seq<Buf>, inbox: seq<Message>, m: Message)
    requires Halt in inbox
    ensures Halt in inbox + [m] && LastBytes(accepted, inbox + [m]) == LastBytes(accepted, inbox)
  {
    BeforeHaltPost(inbox, m);
  }

  lemma OtherStepSafe(r: Relay, st: Step)
    requires Enabled(r, st) && st != Receive && !st.Accept? && r.startDone
    ensures var r' := Apply(r, st);
            && r'.out == r.out && r'.inbox == r.inbox && r'.accepted == r.accepted && r'.startDone
            && (r'.sock == r.sock || r'.sock == Closed)
  {
    StepFrame(r, st);
    match st
    case WriteDone(i) =>
      var q := r.queue[1..];
      if q == [] {} else if r.state == Stop {} else {}
    case RunSpawned => if r.state == Init { if r.queue == [] {} else {} } else {}
    case _ =>
  }

  lemma ReceiveSafe(r: Relay, last: seq<byte>)
    requires Core(r) && r.inbox != [] && (r.sock == Closed || (Halt in r.inbox && LastBytes(r.accepted, r.inbox) == last))
    ensures var r' := Apply(r, Receive);
            && r'.out == r.out && r'.startDone == r.startDone
            && (r'.sock == Closed || (Halt in r'.inbox && LastBytes(r'.accepted, r'.inbox) == last))
  {
    ReceiveSame(r);
    assert r.inbox == [r.inbox[0]] + r.inbox[1..];
    match r.inbox[0]
    case Halt =>
    case Send(b) => Associative(r.accepted, [b], BeforeHalt(r.inbox[1..]));
  }

  lemma {:induction false} SafeUntilHaltRun(r: Relay, es: seq<Event>, last: seq<byte>)
    requires SafeUntilHalt(r, last) && Run(r, es)
    ensures After(r, es).out <= Flatten(After(r, es).offered)
    decreases |es|
  {
    if es != [] {
      SafeUntilHaltStep(r, es[0], last);
      SafeUntilHaltRun(Happen(r, es[0]), es[1..], last);
    }
  }

  // -- unsafe: a run that writes all it can

  /** Everything in front of a pending stop is received. */
  lemma {:induction false} ReceiveSends(r: Relay) returns (es: seq<Event>)
    requires r.state == Init
    ensures Run(r, es)
    ensures var a := After(r, es);
            && a.queue == r.queue + BeforeHalt(r.inbox) && a.spawned >= r.spawned && a.state == Init
            && a.sock == r.sock && a.out == r.out && a.offered == r.offered && a.writers == r.writers
    decreases |r.inbox|
  {
    if r.inbox == [] || r.inbox[0] == Halt {
      es := [];
      assert r.queue + [] == r.queue;
    } else {
      var n := Apply(r, Receive);
      var rest := ReceiveSends(n);
      es := Prepend(r, Receive, rest);
      Associative(r.queue, [r.inbox[0].buf], BeforeHalt(r.inbox[1..]));
    }
  }

  /** The socket takes the front buffer in one piece. */
  lemma TakeFront(r: Relay) returns (a: Relay, es: seq<Event>)
    requires r.sock == Open && r.queue != [] && r.writers == [Writer(r.queue[0], 0)]
    ensures Run(r, es) && After(r, es) == a
    ensures a == r.(writers := [Writer(r.queue[0], |r.queue[0].bytes|)], out := r.out + r.queue[0].bytes)
  {
    var b := r.queue[0].bytes;
    if b == [] {
      a, es := r, [];
      assert r.out + b == r.out;
    } else {
      es := [Internal(Accept(0, |b|))];
      a := Apply(r, Accept(0, |b|));
      assert b[0..0 + |b|] == b;
      RunOne(r, es[0]);
    }
  }

  /** Its write completes, and the drain goes on to the next one. */
  lemma PopFront(r: Relay)
    requires r.state == Start && r.queue != [] && r.writers == [Writer(r.queue[0], |r.queue[0].bytes|)]
    ensures Enabled(r, WriteDone(0))
    ensures var n := Apply(r, WriteDone(0));
            && n.queue == r.queue[1..] && n.out == r.out && n.offered == r.offered && n.sock == r.sock
            && (n.queue != [] ==> n.state == Start && n.writers == [Writer(n.queue[0], 0)])
  {
    assert Without(r.writers, 0) == [];
  }

  /** A drain at the start of its front buffer writes the whole queue. */
  lemma {:induction false} WriteAll(r: Relay) returns (es: seq<Event>)
    requires r.state == Start && r.sock == Open && r.queue != [] && r.writers == [Writer(r.queue[0], 0)]
    ensures Run(r, es)
    ensures After(r, es).out == r.out + Flatten(r.queue) && After(r, es).offered == r.offered
    decreases |r.queue|
  {
    var a, taken := TakeFront(r);
    PopFront(a);
    var n := Apply(a, WriteDone(0));
    var rest := [];
    if n.queue != [] {
      rest := WriteAll(n);
    } else {
      assert n.out + Flatten(n.queue) == n.out;
    }
    var more := Prepend(a, WriteDone(0), rest);
    RunSplit(r, taken, more);
    es := taken + more;
    Associative(r.out, r.queue[0].bytes, Flatten(r.queue[1..]));
  }

  lemma Prepend(r: Relay, st: Step, rest: seq<Event>) returns (es: seq<Event>)
    requires Enabled(r, st) && Run(Apply(r, st), rest)
    ensures Run(r, es) && After(r, es) == After(Apply(r, st), rest)
  {
    es := [Internal(st)] + rest;
    assert es[1..] == rest;
  }

  lemma DrainRun(r: Relay) returns (es: seq<Event>)
    requires r.state == Init && r.spawned > 0 && r.writers == [] && r.sock == Open
    ensures Run(r, es)
    ensures After(r, es).out == r.out + Flatten(r.queue) && After(r, es).offered == r.offered
  {
    if r.queue == [] {
      es := [];
      assert r.out + Flatten(r.queue) == r.out;
    } else {
      var n := Apply(r, RunSpawned);
      assert n.writers == [Writer(r.queue[0], 0)];
      var rest := WriteAll(n);
      es := Prepend(r, RunSpawned, rest);
    }
  }

  /** All that comes before a pending stop can get out. */
  lemma WriteOut(r: Relay) returns (es: seq<Event>)
    requires r.state == Init && r.spawned > 0 && r.writers == [] && r.sock == Open
    ensures Run(r, es)
    ensures After(r, es).out == r.out + Flatten(r.queue + BeforeHalt(r.inbox)) && After(r, es).offered == r.offered
  {
    var first := ReceiveSends(r);
    var second := DrainRun(After(r, first));
    RunSplit(r, first, second);
    es := first + second;
  }

  /** A dialling relay before and after its dial. */
  lemma Revived(r: Relay)
    requires Core(r) && r.dials && Enabled(r, StartOk)
    ensures var s := Apply(r, StartOk);
            && Core(s) && s.state == Init && s.sock == Open && s.startDone && s.spawned > 0 && s.writers == []
            && s.out == [] && s.queue == r.accepted == s.accepted && s.inbox == r.inbox && s.offered == r.offered
  {
    StepKeepsCore(r, StartOk);
    assert r.accepted == [] + r.queue;
  }

  /** The bytes that a frame x posted last would come after. */
  lemma PostedLast(r: Relay, x: Buf)
    requires Halt !in r.inbox
    ensures LastBytes(r.accepted, Post(r, Send(x)).inbox) == Flatten(r.accepted) + Flatten(Sends(r.inbox)) + x.bytes
  {
    var p := Post(r, Send(x));
    BeforeHaltPost(p.inbox, Halt);
    assert Halt !in p.inbox;
    SendsSplit(r.inbox, [Send(x)]);
    SendsOne(Send(x));
    Associative(r.accepted, Sends(r.inbox), [x]);
    FlattenSplit(r.accepted, Sends(r.inbox));
    FlattenSplit(r.accepted + Sends(r.inbox), [x]);
    FlattenOne(x);
  }

  lemma NotAPrefix(a: seq<byte>, b: seq<byte>, x: byte, more: seq<byte>)
    requires |a| < |b| && b[|a|] != x
    ensures !(a + [x] <= b + more)
  {
    assert (a + [x])[|a|] == x;
    assert (b + more)[|a|] == b[|a|];
  }

  /** A byte that was dropped is missed as soon as another one follows it. */
  lemma GapAfterLoss(r: Relay) returns (es: seq<Event>)
    requires Core(r) && r.dials && Enabled(r, StartOk) && r.missed > 0 && Halt !in r.inbox
    ensures var s := Apply(r, StartOk);
            Run(s, es) && !(After(s, es).out <= Flatten(After(s, es).offered))
  {
    Revived(r);
    var s := Apply(r, StartOk);
    var gone := Flatten(r.accepted) + Flatten(Sends(r.inbox));
    assert |gone| < |Flatten(r.offered)|;
    var x := Byte(if Flatten(r.offered)[|gone|] == 0 then 1 else 0);
    hide Core, BeforeHalt, Sends;
    PostedLast(s, x);
    var rest := WriteOut(Post(s, Send(x)));
    es := [Posted(Send(x))] + rest;
    assert es[1..] == rest;
    FlattenSplit(r.offered, [x]);
    assert After(s, es).out == [] + (gone + x.bytes) == gone + x.bytes;
    NotAPrefix(gone, Flatten(r.offered), x.bytes[0], Flatten([x]));
  }

  /** With a stop pending, nothing but what comes before it can do harm. */
  lemma GapBeforeHalt(r: Relay) returns (es: seq<Event>)
    requires Core(r) && r.dials && Enabled(r, StartOk) && !(LastBytes(r.accepted, r.inbox) <= Flatten(r.offered))
    ensures var s := Apply(r, StartOk);
            Run(s, es) && !(After(s, es).out <= Flatten(After(s, es).offered))
  {
    Revived(r);
    var s := Apply(r, StartOk);
    es := WriteOut(s);
    assert s.out + LastBytes(r.accepted, r.inbox) == LastBytes(r.accepted, r.inbox);
  }

  /** When it is safe that a dial completes, whatever ran before: exactly if no
      byte was dropped, or if a stop is pending and the frames in front of it
      still continue what was accepted before. */
  lemma {:induction false} DialSafeExact(kind: Kind, es: seq<Event>)
    requires Run(Fresh(kind, true), es)
    ensures var r := After(Fresh(kind, true), es);
            !r.startDone ==> r.dials && (StaysWhole(Apply(r, StartOk)) <==> DialIsSafe(r))
  {
    hide Core, DialIsSafe, StaysWhole, Run, After;
    var r := After(Fresh(kind, true), es);
    InitFresh(kind, true);
    RunKeepsCore(Fresh(kind, true), es);
    RunKeepsKind(Fresh(kind, true), es);
    if !r.startDone {
      DialSafe(r);
    }
  }

  /** No byte was dropped, or a stop is pending and the frames in front of it
      continue what was offered. */
  predicate DialIsSafe(r: Relay) {
    r.missed == 0 || (Halt in r.inbox && LastBytes(r.accepted, r.inbox) <= Flatten(r.offered))
  }

  lemma DialSafe(r: Relay)
    requires Core(r) && r.dials && !r.startDone
    ensures StaysWhole(Apply(r, StartOk)) <==> DialIsSafe(r)
  {
    Revived(r);
    var s := Apply(r, StartOk);
    if r.missed == 0 {
      forall more | Run(s, more)
        ensures After(s, more).out <= Flatten(After(s, more).offered)
      {
        SafeWholeRun(s, more);
      }
    } else if Halt !in r.inbox {
      var more := GapAfterLoss(r);
    } else if LastBytes(r.accepted, r.inbox) <= Flatten(r.offered) {
      forall more | Run(s, more)
        ensures After(s, more).out <= Flatten(After(s, more).offered)
      {
        SafeUntilHaltRun(s, more, LastBytes(r.accepted, r.inbox));
      }
    } else {
      var more := GapBeforeHalt(r);
    }
  }

  lemma {:induction false} RunKeepsKind(r: Relay, es: seq<Event>)
    requires Run(r, es)
    ensures After(r, es).dials == r.dials
    decreases |es|
  {
    if es != [] {
      match es[0] {
        case Internal(st) => StepFrame(r, st);
        case Tick => if r.timeout == 1 {} else {}
        case _ =>
      }
      RunKeepsKind(Happen(r, es[0]), es[1..]);
    }
  }

  // -- the same for frames with bytes in them

  /** Every frame that is posted has bytes in it: the header's, say. */
  predicate Weighty(es: seq<Event>) {
    forall e | e in es :: (e.Posted? && e.m.Send? ==> e.m.buf.bytes != []) && (e.Refused? ==> e.b.bytes != [])
  }

  ghost predicate LossCounts(r: Relay) {
    (forall m | m in r.inbox && m.Send? :: m.buf.bytes != []) && (r.lost <==> r.missed > 0)
  }

  lemma LossCountsStep(r: Relay, e: Event)
    requires LossCounts(r) && CanHappen(r, e) && Weighty([e])
    ensures LossCounts(Happen(r, e))
  {
    assert e in [e];
    match e
    case Internal(Receive) => LossCountsReceive(r);
    case Internal(st) => StepInbox(r, st); StepLosesNothing(r, st);
    case Posted(m) => if m.Send? {} else {}
    case Refused(b) =>
    case Tick => if r.timeout == 1 {} else {}
    case Reset =>
  }

  lemma LossCountsReceive(r: Relay)
    requires LossCounts(r) && r.inbox != []
    ensures LossCounts(Apply(r, Receive))
  {
    assert r.inbox[0] in r.inbox && forall m | m in r.inbox[1..] :: m in r.inbox;
    match r.inbox[0]
    case Halt =>
    case Send(b) => if r.state == Stop {} else {}
  }

  lemma StepInbox(r: Relay, st: Step)
    requires Enabled(r, st) && st != Receive
    ensures Apply(r, st).inbox == r.inbox
  {
    match st
    case WriteDone(i) =>
      var q := r.queue[1..];
      if q == [] {} else if r.state == Stop {} else {}
    case RunSpawned => if r.state == Init { if r.queue == [] {} else {} } else {}
    case _ =>
  }

  lemma {:induction false} LossCountsRun(r: Relay, es: seq<Event>)
    requires LossCounts(r) && Run(r, es) && Weighty(es)
    ensures LossCounts(After(r, es))
    decreases |es|
  {
    if es != [] {
      assert es == [es[0]] + es[1..];
      LossCountsStep(r, es[0]);
      LossCountsRun(Happen(r, es[0]), es[1..]);
    }
  }

  /** For such frames, and with no stop pending: completing the dial is safe
      exactly when no frame was dropped. */
  lemma {:induction false} DialSafeIff(kind: Kind, es: seq<Event>)
    requires Run(Fresh(kind, true), es) && Weighty(es)
    ensures var r := After(Fresh(kind, true), es);
            !r.startDone && Halt !in r.inbox ==> (StaysWhole(Apply(r, StartOk)) <==> !r.lost)
  {
    hide Run, After, StaysWhole;
    LossCountsRun(Fresh(kind, true), es);
    DialSafeExact(kind, es);
  }

  function Byte(n: byte): Buf {
    Buf(Frame(0, DataTcp, [n]), [n])
  }

  lemma PostedThenReceived(r: Relay, m: Message)
    requires r.inbox == []
    ensures Enabled(Post(r, m), Receive)
    ensures Apply(Post(r, m), Receive) ==
            var p := Post(r, m).(inbox := []);
            match m case Send(b) => SendData(p, b) case Halt => StopRelay(p)
  {
    assert [m][1..] == [];
  }

  /** A relay that was stopped while connecting, took 1 before and dropped 2
      after: a state it reaches from fresh by three posted messages. */
  const LOST := Relay(Ssl, true, Stop, Closed, [], [Byte(1)], 0, 0, [], false, TIMEOUT,
                      [Byte(1), Byte(2)], [Byte(1)], [], [], [], true, 1, true, true)

  lemma LostReached()
    ensures var r1 := Apply(Post(Fresh(Ssl, true), Send(Byte(1))), Receive);
            var r2 := Apply(Post(r1, Halt), Receive);
            && r1.inbox == [] && r2.inbox == []
            && Apply(Post(r2, Send(Byte(2))), Receive) == LOST
  {
    var r0 := Fresh(Ssl, true);
    PostedThenReceived(r0, Send(Byte(1)));
    var r1 := Apply(Post(r0, Send(Byte(1))), Receive);
    PostedThenReceived(r1, Halt);
    var r2 := Apply(Post(r1, Halt), Receive);
    PostedThenReceived(r2, Send(Byte(2)));
    assert [Byte(1)] + [Byte(2)] == [Byte(1), Byte(2)];
  }

  /** Without the guard there is a gap: revived, that relay sends 1 and then 3. */
  lemma DialAfterLossLeavesGap()
    ensures var r1 := Apply(LOST, StartOk);
            var r2 := Apply(Post(r1, Send(Byte(3))), Receive);
            && Enabled(r2, RunSpawned) && Enabled(Apply(r2, RunSpawned), Accept(0, 1))
            && var r3 := Apply(Apply(r2, RunSpawned), Accept(0, 1));
            && Enabled(r3, WriteDone(0)) && Enabled(Apply(r3, WriteDone(0)), Accept(0, 1))
            && var r4 := Apply(Apply(r3, WriteDone(0)), Accept(0, 1));
            && r4.out == [1, 3] && Flatten(r4.offered) == [1, 2, 3]
  {
    var r1 := Apply(LOST, StartOk);
    PostedThenReceived(r1, Send(Byte(3)));
    var r2 := Apply(Post(r1, Send(Byte(3))), Receive);
    assert r2.queue == [Byte(1), Byte(3)] && r2.out == [] && r2.state == Init && r2.sock == Open && r2.writers == [];
    Gap(r2);
    assert r2.offered == [Byte(1), Byte(2), Byte(3)];
    FlattenThree(Byte(1), Byte(2), Byte(3));
  }

  lemma Gap(r2: Relay)
    requires r2.queue == [Byte(1), Byte(3)] && r2.out == [] && r2.state == Init && r2.sock == Open
    requires r2.writers == [] && r2.spawned > 0
    ensures Enabled(Apply(r2, RunSpawned), Accept(0, 1))
    ensures var r3 := Apply(Apply(r2, RunSpawned), Accept(0, 1));
            && r3.offered == r2.offered
            && Enabled(r3, WriteDone(0)) && Enabled(Apply(r3, WriteDone(0)), Accept(0, 1))
            && Apply(Apply(r3, WriteDone(0)), Accept(0, 1)).out == [1, 3]
            && Apply(Apply(r3, WriteDone(0)), Accept(0, 1)).offered == r2.offered
  {
    var d := Apply(r2, RunSpawned);
    assert d.writers == [Writer(Byte(1), 0)];
    var r3 := Apply(d, Accept(0, 1));
    assert r3.writers == [Writer(Byte(1), 1)] && r3.out == [1] && r3.queue == [Byte(1), Byte(3)] && r3.sock == Open;
    var e := Apply(r3, WriteDone(0));
    assert Without(r3.writers, 0) == [];
    assert e.writers == [Writer(Byte(3), 0)] && e.out == [1] && e.sock == Open;
  }

  lemma FlattenThree(a: Buf, b: Buf, c: Buf)
    ensures Flatten([a, b, c]) == a.bytes + b.bytes + c.bytes
  {
    FlattenOne(c);
    assert [b, c][1..] == [c] && [a, b, c][1..] == [b, c];
    Associative(a.bytes, b.bytes, c.bytes);
  }

  /** A stop during the last write in flight is overwritten: the relay ends up
      in INIT on a closed socket, and takes frames it can never send. */
  lemma StopOverwritten(r: Relay)
    requires Core(r) && r.startDone && r.writers != [] && |r.queue| == 1
    requires r.inbox == [] && r.writers[0].sent == |r.queue[0].bytes|
    ensures var s := Apply(Post(r, Halt), Receive);
            && s.state == Stop && Enabled(s, WriteDone(0))
            && Apply(s, WriteDone(0)).state == Init && Final(Apply(s, WriteDone(0)))
  {
    PostedThenReceived(r, Halt);
  }
}
