/** The SOCKS connect reply is written outside of the drain, which has been
    started before: when two writes can be under way on one socket. */
module ReplyOverlap {
  import opened Bytes
  import opened RelayData
  import opened RelayQueue
  import opened QueueTheorems
  import opened Endpoints

  /** The drain's write and the reply's. */
  predicate TwoWrites(o: Obj) {
    o.replying && o.relay.writers != []
  }

  /** With the reply under way, a step starts a second write exactly when it runs
      a spawned drain that finds INIT and a queue that is not empty. */
  lemma OverlapStepExact(o: Obj, q: RelayQueue.Step)
    requires o.replying && o.relay.writers == [] && RelayQueue.Enabled(o.relay, q)
    ensures TwoWrites(ObjAfter(o, q, false)) <==> q == RunSpawned && o.relay.state == Init && o.relay.queue != []
  {
    match q
    case Receive =>
      match o.relay.inbox[0] {
        case Halt =>
        case Send(b) => if o.relay.state == Stop {} else {}
      }
    case RunSpawned =>
      if o.relay.state == Init {
        if o.relay.queue == [] {} else {}
      }
    case _ =>
  }

  predicate NoPosts(es: seq<Event>) {
    forall e | e in es :: !e.Posted?
  }

  /** No frame is queued, and none can come in before a stop. */
  predicate NothingToWrite(r: Relay) {
    r.startDone && r.writers == [] && r.queue == [] && (r.state == Stop || BeforeHalt(r.inbox) == [])
  }

  lemma NothingToWriteStep(r: Relay, e: Event)
    requires NothingToWrite(r) && CanHappen(r, e) && !e.Posted?
    ensures NothingToWrite(Happen(r, e))
  {
    match e
    case Internal(Receive) =>
      match r.inbox[0] {
        case Halt =>
        case Send(b) => if r.state == Stop {} else {}
      }
    case Internal(RunSpawned) => if r.state == Init {} else {}
    case Internal(_) =>
    case Refused(b) =>
    case Tick =>
      BeforeHaltPost(r.inbox, Halt);
      TickHalts(r.inbox);
      if r.timeout == 1 {} else {}
    case Reset =>
  }

  lemma {:induction false} TickHalts(ms: seq<Message>)
    ensures BeforeHalt(ms + [Halt]) == BeforeHalt(ms)
  {
    if ms == [] {
      assert ms + [Halt] == [Halt];
    } else {
      assert (ms + [Halt])[1..] == ms[1..] + [Halt];
      TickHalts(ms[1..]);
    }
  }

  lemma {:induction false} NothingToWriteRun(r: Relay, es: seq<Event>)
    requires NothingToWrite(r) && Run(r, es) && NoPosts(es)
    ensures After(r, es).writers == []
    decreases |es|
  {
    if es != [] {
      assert es[0] in es && forall e | e in es[1..] :: e in es;
      NothingToWriteStep(r, es[0]);
      NothingToWriteRun(Happen(r, es[0]), es[1..]);
    }
  }

  lemma {:induction false} ReceiveRun(r: Relay) returns (es: seq<Event>)
    requires r.state == Init && r.writers == [] && Core(r)
    ensures Run(r, es) && NoPosts(es)
    ensures var a := After(r, es);
            a.queue == r.queue + BeforeHalt(r.inbox) && a.state == Init && a.writers == [] && Core(a)
    decreases |r.inbox|
  {
    if r.inbox == [] || r.inbox[0] == Halt {
      es := [];
      assert r.queue + [] == r.queue;
    } else {
      StepKeepsCore(r, Receive);
      var rest := ReceiveRun(Apply(r, Receive));
      es := [Internal(Receive)] + rest;
      assert es[1..] == rest;
      Associative(r.queue, [r.inbox[0].buf], BeforeHalt(r.inbox[1..]));
    }
  }

  /** A relay in INIT can come to write before anything else is posted to it
      exactly when a frame is queued, or waits in front of any stop. */
  lemma OverlapExact(o: Obj)
    requires o.replying && Core(o.relay) && o.relay.startDone && o.relay.state == Init
    ensures (exists es :: Run(o.relay, es) && NoPosts(es) && TwoWrites(o.(relay := After(o.relay, es)))) <==>
            o.relay.queue + BeforeHalt(o.relay.inbox) != []
  {
    var r := o.relay;
    if r.queue + BeforeHalt(r.inbox) != [] {
      var first := ReceiveRun(r);
      var a := After(r, first);
      RunSplit(r, first, [Internal(RunSpawned)]);
      RunOne(a, Internal(RunSpawned));
      var es := first + [Internal(RunSpawned)];
      assert TwoWrites(o.(relay := After(r, es)));
    } else {
      forall es | Run(r, es) && NoPosts(es)
        ensures !TwoWrites(o.(relay := After(r, es)))
      {
        NothingToWriteRun(r, es);
      }
    }
  }

  // ------------------------------------------------------------------ a trace

  lemma Started(data: seq<byte>)
    requires |data| <= READ_BUFFER_SIZE && DestOf(data).Ok?
    ensures CanMove(NewLocal(LocalServer), Own(AcceptTcp))
    ensures var e1 := Moved(NewLocal(LocalServer), Own(AcceptTcp));
            && CanMove(e1, Own(EmitStart(0, data)))
            && var e2 := Moved(e1, Own(EmitStart(0, data)));
            && CanMove(e2, Own(ObjStep(0, StartOk)))
            && var e3 := Moved(e2, Own(ObjStep(0, StartOk)));
            && IsReplying(e3) && e3.objs[0].relay == Fresh(RawTcp, false).(startDone := true, state := Init, spawned := 1)
  {
  }

  /** The end's one relay, of session 1, has its reply under way. */
  predicate IsReplying(e: Endpoint) {
    e.relays == map[1 := Some(0)] && |e.objs| == 1 && Tcp(e.objs[0]) && e.objs[0].session == 1 && e.objs[0].replying && SslOk(e)
  }

  lemma Replies(e: Endpoint, f: Frame)
    requires IsReplying(e) && e.objs[0].relay == Fresh(RawTcp, false).(startDone := true, state := Init, spawned := 1)
    requires f.session == 1 && f.cmd == DataTcp && |f.data| <= READ_BUFFER_SIZE
    ensures CanMove(e, Own(ObjStep(0, RunSpawned)))
    ensures var e4 := Moved(e, Own(ObjStep(0, RunSpawned)));
            && CanMove(e4, Handles(f))
            && var e5 := Moved(e4, Handles(f));
            && IsReplying(e5)
            && e5.objs[0].relay == Post(Fresh(RawTcp, false).(startDone := true, state := Init), Send(Load(RawTcp, f)))
  {
  }

  lemma Writes(e: Endpoint, f: Frame)
    requires IsReplying(e)
    requires e.objs[0].relay == Post(Fresh(RawTcp, false).(startDone := true, state := Init), Send(Load(RawTcp, f)))
    ensures CanMove(e, Own(ObjStep(0, Receive)))
    ensures var e6 := Moved(e, Own(ObjStep(0, Receive)));
            && CanMove(e6, Own(ObjStep(0, RunSpawned)))
            && var e7 := Moved(e6, Own(ObjStep(0, RunSpawned)));
            IsReplying(e7) && |e7.objs[0].relay.writers| == 1 && e7.objs[0].relay.sock == Open
  {
    var r := e.objs[0].relay;
    assert r.inbox == [Send(Load(RawTcp, f))];
    assert Apply(r, Receive).queue == [Load(RawTcp, f)];
  }

  /** A behaviour of a SOCKS end in which two writes are under way: the first
      frame from the far side comes while the reply is still being written. */
  lemma OverlapTrace(data: seq<byte>, f: Frame) returns (es: seq<Endpoint>, ms: seq<Move>)
    requires |data| <= READ_BUFFER_SIZE && DestOf(data).Ok?
    requires f.session == 1 && f.cmd == DataTcp && |f.data| <= READ_BUFFER_SIZE
    ensures EndBehaviour(es, ms) && es[0] == NewLocal(LocalServer)
    ensures var e := es[|ms|];
            |e.objs| == 1 && TwoWrites(e.objs[0]) && e.objs[0].relay.sock == Open
  {
    hide CanMove, Moved, Post, Load, Fresh, NewLocal;
    ms := [Own(AcceptTcp), Own(EmitStart(0, data)), Own(ObjStep(0, StartOk)), Own(ObjStep(0, RunSpawned)),
           Handles(f), Own(ObjStep(0, Receive)), Own(ObjStep(0, RunSpawned))];
    Started(data);
    var e0 := NewLocal(LocalServer);
    var e1 := Moved(e0, ms[0]);
    var e2 := Moved(e1, ms[1]);
    var e3 := Moved(e2, ms[2]);
    Replies(e3, f);
    var e4 := Moved(e3, ms[3]);
    var e5 := Moved(e4, ms[4]);
    Writes(e5, f);
    var e6 := Moved(e5, ms[5]);
    es := [e0, e1, e2, e3, e4, e5, e6, Moved(e6, ms[6])];
  }
}
