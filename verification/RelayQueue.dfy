/** The send queue every relay has (base_relay): its state machine, the
    messages other strands post to it and the coroutines that run on its own
    strand, as steps between two suspension points. The histories `offered`,
    `accepted`, `written` and `out` record what happened and steer nothing.

    Assumptions made here once for the whole project: handlers of one strand do
    not overlap and each producer's messages arrive in order (the inbox), and a
    closed or shut-down socket takes no more bytes (Accept needs an open one). */
module RelayQueue {
  import opened Bytes
  import opened RelayData

  datatype State = Uninit | Init | Start | Stop
  datatype Socket = Unopened | Open | Closed
  datatype Kind = Ssl | RawTcp | RawUdp

  /** A relay_data in a queue, with the bytes that internal_send_data will
      write for it. */
  datatype Buf = Buf(frame: Frame, bytes: seq<byte>)

  /** What other strands post: send_data and stop_relay. */
  datatype Message = Send(buf: Buf) | Halt

  /** A drain coroutine suspended in internal_send_data: `sent` bytes of its
      buffer have been taken by the socket. */
  datatype Writer = Writer(buf: Buf, sent: nat)

  datatype Relay = Relay(
    kind: Kind,
    dials: bool,            // the start coroutine opens the socket itself
    state: State,
    sock: Socket,
    inbox: seq<Message>,    // posted to the strand, not yet handled
    queue: seq<Buf>,        // _bufs
    spawned: nat,           // start_send coroutines not yet run
    stops: nat,             // stop_relay calls from this strand not yet run
    writers: seq<Writer>,   // drains past their state check
    startDone: bool,        // the start coroutine has finished
    timeout: nat,
    offered: seq<Buf>,      // history: every Send ever posted
    accepted: seq<Buf>,     // history: pushed on the queue
    written: seq<Buf>,      // history: popped after a completed write
    out: seq<byte>,         // history: bytes the socket took
    torn: seq<byte>,        // history: bytes of a frame whose write failed
    lost: bool,             // history: a frame was dropped in state Stop
    missed: nat,            // history: how many bytes were dropped so
    late: bool,             // history: a Send was posted after stop_relay was called
    stopCalled: bool)       // history: stop_relay has been called

  function Fresh(kind: Kind, dials: bool): Relay {
    Relay(kind, dials, Uninit, if dials then Unopened else Open, [], [], 0, 0, [], false, TIMEOUT,
          [], [], [], [], [], false, 0, false, false)
  }

  /** The buffer views internal_send_data writes: ssl_relay sends header and
      data, raw_tcp the data, raw_udp the payload behind the address. */
  function Load(kind: Kind, f: Frame): Buf {
    Buf(f, match kind
           case Ssl => Encode(f)
           case RawTcp => f.data
           case RawUdp => UdpPayload(f))
  }

  function Flatten(bs: seq<Buf>): seq<byte> {
    if bs == [] then [] else bs[0].bytes + Flatten(bs[1..])
  }

  // ------------------------------------------------------------- operations

  /** send_data, on the relay's strand. */
  function SendData(r: Relay, b: Buf): Relay {
    if r.state == Stop then r.(lost := true, missed := r.missed + |b.bytes|)
    else
      var q := r.queue + [b];
      r.(queue := q, accepted := r.accepted + [b],
         spawned := if r.state == Init && |q| == 1 then r.spawned + 1 else r.spawned)
  }

  /** stop_relay, on the relay's strand. */
  function StopRelay(r: Relay): Relay {
    r.(state := Stop, sock := Closed, stopCalled := true)
  }

  /** The head of the drain loop, up to the next suspension. */
  function LoopHead(r: Relay): Relay {
    if r.queue == [] then r.(state := Init)
    else if r.state == Stop then r
    else r.(writers := r.writers + [Writer(r.queue[0], 0)], timeout := TIMEOUT)
  }

  function Without<T>(s: seq<T>, i: nat): seq<T>
    requires i < |s|
  {
    s[..i] + s[i + 1..]
  }

  function Post(r: Relay, m: Message): Relay {
    match m
    case Send(b) => r.(inbox := r.inbox + [m], offered := r.offered + [b], late := r.late || r.stopCalled)
    case Halt => r.(inbox := r.inbox + [m], stopCalled := true)
  }

  /** A frame meant for a relay that its caller found stopped: never posted. */
  function Refuse(r: Relay, b: Buf): Relay {
    r.(offered := r.offered + [b], lost := true, missed := r.missed + |b.bytes|, late := true)
  }

  function ResetTimeout(r: Relay): Relay {
    r.(timeout := TIMEOUT)
  }

  /** timeout_down, called from the manager's strand: at zero it posts a stop. */
  function TimeoutDown(r: Relay): Relay {
    if r.timeout == 0 then r
    else if r.timeout == 1 then Post(r.(timeout := 0), Halt)
    else r.(timeout := r.timeout - 1)
  }

  datatype Step =
    | Receive                    // the next message posted by another strand
    | RunSpawned                 // a start_send coroutine runs to its first suspension
    | Accept(i: nat, k: nat)     // the socket takes k bytes of writer i
    | WriteDone(i: nat)          // writer i's write completes
    | WriteFail(i: nat)          // writer i's write throws
    | CallStop                   // a read loop on this strand calls stop_relay
    | RunStop
    | StartOk                    // the start coroutine reaches state = RELAY_INIT; start_send()
    | StartFail                  // the start coroutine throws

  predicate Enabled(r: Relay, st: Step) {
    match st
    case Receive => r.inbox != []
    case RunSpawned => r.spawned > 0
    case Accept(i, k) => i < |r.writers| && r.sock == Open && k > 0
                         && r.writers[i].sent + k <= |r.writers[i].buf.bytes|
    case WriteDone(i) => i < |r.writers| && r.writers[i].sent == |r.writers[i].buf.bytes| && r.queue != []
    case WriteFail(i) => i < |r.writers|
    case CallStop => r.startDone || !r.dials
    case RunStop => r.stops > 0
    case StartOk => !r.startDone
    case StartFail => !r.startDone
  }

  function Apply(r: Relay, st: Step): Relay
    requires Enabled(r, st)
  {
    match st
    case Receive =>
      var rest := r.(inbox := r.inbox[1..]);
      (match r.inbox[0] case Send(b) => SendData(rest, b) case Halt => StopRelay(rest))
    case RunSpawned =>
      var rest := r.(spawned := r.spawned - 1);
      if r.state != Init then rest else LoopHead(rest.(state := Start))
    case Accept(i, k) =>
      var w := r.writers[i];
      r.(writers := r.writers[i := Writer(w.buf, w.sent + k)],
         out := r.out + w.buf.bytes[w.sent..w.sent + k])
    case WriteDone(i) =>
      LoopHead(r.(writers := Without(r.writers, i), queue := r.queue[1..], written := r.written + [r.queue[0]]))
    case WriteFail(i) =>
      var w := r.writers[i];
      r.(writers := Without(r.writers, i), stops := r.stops + 1, stopCalled := true,
         torn := if w.sent <= |w.buf.bytes| then w.buf.bytes[..w.sent] else [])
    case CallStop => r.(stops := r.stops + 1, stopCalled := true)
    case RunStop => StopRelay(r.(stops := r.stops - 1))
    case StartOk =>
      r.(startDone := true, state := Init, spawned := r.spawned + 1, sock := if r.dials then Open else r.sock)
    case StartFail => r.(startDone := true, stops := r.stops + 1, stopCalled := true)
  }

  /** Dialling reopens the socket of a relay that was stopped while it was
      still connecting. Harmless unless a frame was dropped in between; the code
      does not look, so runs may contain steps that are not clean. */
  predicate Clean(r: Relay, st: Step) {
    st == StartOk && r.dials ==> !r.lost
  }

  /** Anything that can happen to a relay: a step of its own, a message from
      another strand, a refusal, a timer tick or a reset of the idle counter. */
  datatype Event = Internal(step: Step) | Posted(m: Message) | Refused(b: Buf) | Tick | Reset

  predicate CanHappen(r: Relay, e: Event) {
    match e
    case Internal(st) => Enabled(r, st)
    case Refused(_) => r.state == Stop
    case _ => true
  }

  function Happen(r: Relay, e: Event): Relay
    requires CanHappen(r, e)
  {
    match e
    case Internal(st) => Apply(r, st)
    case Posted(m) => Post(r, m)
    case Refused(b) => Refuse(r, b)
    case Tick => TimeoutDown(r)
    case Reset => ResetTimeout(r)
  }

  predicate Run(r: Relay, es: seq<Event>)
    decreases |es|
  {
    es != [] ==> CanHappen(r, es[0]) && Run(Happen(r, es[0]), es[1..])
  }

  function After(r: Relay, es: seq<Event>): Relay
    requires Run(r, es)
    decreases |es|
  {
    if es == [] then r else After(Happen(r, es[0]), es[1..])
  }

  predicate CleanEvent(r: Relay, e: Event) {
    e.Internal? ==> Clean(r, e.step)
  }

  predicate CleanRun(r: Relay, es: seq<Event>)
    requires Run(r, es)
    decreases |es|
  {
    es != [] ==> CleanEvent(r, es[0]) && CleanRun(Happen(r, es[0]), es[1..])
  }

  // ------------------------------------------------------------- invariant

  function Sends(ms: seq<Message>): seq<Buf> {
    if ms == [] then [] else (match ms[0] case Send(b) => [b] case Halt => []) + Sends(ms[1..])
  }

  predicate NoSendAfterHalt(ms: seq<Message>) {
    forall i, j :: 0 <= i < j < |ms| && ms[i] == Halt ==> ms[j] == Halt
  }

  function InFlight(r: Relay): seq<byte> {
    if |r.writers| == 1 && r.writers[0].sent <= |r.writers[0].buf.bytes|
    then r.writers[0].buf.bytes[..r.writers[0].sent]
    else r.torn
  }

  /** At most one drain, working on the front of the queue; no wake-up lost. */
  ghost predicate DrainInv(r: Relay) {
    && |r.writers| <= 1
    && (r.writers != [] ==>
          && r.state in {Start, Stop}
          && r.queue != [] && r.writers[0].buf == r.queue[0]
          && r.writers[0].sent <= |r.queue[0].bytes|
          && r.torn == [])
    && (r.state == Start && r.writers == [] ==> r.stops > 0)
    && (r.state == Init && r.queue != [] ==> r.spawned > 0)
    && (r.torn != [] ==> r.queue != [] && r.torn <= r.queue[0].bytes && r.startDone && r.state in {Start, Stop})
    && (r.startDone && r.state == Uninit ==> r.stops > 0)
    && (!r.startDone ==> r.state in {Uninit, Stop} && r.writers == [] && r.spawned == 0 && r.written == [])
  }

  /** Nothing accepted is lost, duplicated or reordered: the socket has all
      completed writes and the front of the buffer in flight. */
  ghost predicate StreamInv(r: Relay) {
    && r.accepted == r.written + r.queue
    && r.out == Flatten(r.written) + InFlight(r)
    && (!r.lost ==> r.missed == 0 && r.offered == r.accepted + Sends(r.inbox))
  }

  /** What was offered is accounted for to the byte. */
  ghost predicate ByteInv(r: Relay) {
    && |Flatten(r.offered)| == |Flatten(r.accepted)| + |Flatten(Sends(r.inbox))| + r.missed
    && (r.missed == 0 ==> Flatten(r.offered) == Flatten(r.accepted) + Flatten(Sends(r.inbox)))
  }

  /** A stopped relay's socket is closed; stop_relay was called before. */
  ghost predicate StopInv(r: Relay) {
    && (r.state == Stop ==> r.sock == Closed)
    && (r.state == Stop || r.stops > 0 || Halt in r.inbox || r.sock == Closed ==> r.stopCalled)
    && r.timeout <= TIMEOUT
  }

  /** Before it has connected, a dialling relay that gets no Send after its
      stop drops nothing. */
  ghost predicate DialInv(r: Relay) {
    r.dials && !r.startDone && !r.late ==>
      && !r.lost && r.stops == 0
      && NoSendAfterHalt(r.inbox)
      && (r.state == Stop ==> Sends(r.inbox) == [])
  }

  /** What every run keeps. */
  ghost predicate Core(r: Relay) {
    DrainInv(r) && StreamInv(r) && ByteInv(r) && StopInv(r) && DialInv(r)
  }

  /** What clean runs keep: the stream is whole. */
  ghost predicate Whole(r: Relay) {
    r.out <= Flatten(r.offered) && (r.lost ==> r.sock == Closed)
  }

  ghost predicate Inv(r: Relay) {
    Core(r) && Whole(r)
  }

  // --------------------------------------------------------- auxiliary facts

  lemma {:induction false} FlattenSplit(a: seq<Buf>, b: seq<Buf>)
    ensures Flatten(a + b) == Flatten(a) + Flatten(b)
  {
    if a == [] {
      assert a + b == b;
    } else {
      FlattenSplit(a[1..], b);
      assert (a + b)[1..] == a[1..] + b;
      Associative(a[0].bytes, Flatten(a[1..]), Flatten(b));
    }
  }

  lemma FlattenOne(f: Buf)
    ensures Flatten([f]) == f.bytes
  {
    assert [f][1..] == [];
  }

  lemma FlattenPrefix(a: seq<Buf>, b: seq<Buf>)
    requires a <= b
    ensures Flatten(a) <= Flatten(b)
  {
    assert b == a + b[|a|..];
    FlattenSplit(a, b[|a|..]);
  }

  lemma {:induction false} SendsSplit(a: seq<Message>, b: seq<Message>)
    ensures Sends(a + b) == Sends(a) + Sends(b)
  {
    if a == [] {
      assert a + b == b;
    } else {
      SendsSplit(a[1..], b);
      assert (a + b)[1..] == a[1..] + b;
      Associative(Sends([a[0]]), Sends(a[1..]), Sends(b));
      SendsOne(a[0]);
    }
  }

  lemma SendsOne(m: Message)
    ensures Sends([m]) == match m case Send(b) => [b] case Halt => []
  {
    assert [m][1..] == [];
  }

  lemma {:induction false} NoSends(ms: seq<Message>)
    requires forall i :: 0 <= i < |ms| ==> ms[i] == Halt
    ensures Sends(ms) == []
  {
    if ms != [] {
      NoSends(ms[1..]);
    }
  }

  lemma InitFresh(kind: Kind, dials: bool)
    ensures Inv(Fresh(kind, dials))
  {
  }

  /** What most of a relay's own steps leave alone. */
  predicate Same(r: Relay, r': Relay) {
    && r'.kind == r.kind && r'.dials == r.dials && r'.offered == r.offered && r'.late == r.late
    && r'.out == r.out && r'.startDone == r.startDone
    && (r.stopCalled ==> r'.stopCalled) && (r.lost ==> r'.lost)
    && (r'.sock == r.sock || r'.sock == Closed)
    && (r'.timeout == r.timeout || r'.timeout == TIMEOUT)
  }

  lemma LoopHeadSame(r: Relay)
    ensures Same(r, LoopHead(r)) && LoopHead(r).sock == r.sock
  {
    if r.queue == [] {
    } else if r.state == Stop {
    } else {
    }
  }

  lemma ReceiveSame(r: Relay)
    requires r.inbox != []
    ensures Same(r, Apply(r, Receive))
  {
    match r.inbox[0]
    case Halt =>
    case Send(b) => if r.state == Stop {} else {}
  }

  lemma RunSpawnedSame(r: Relay)
    requires Enabled(r, RunSpawned)
    ensures Same(r, Apply(r, RunSpawned))
  {
    if r.state == Init {
      LoopHeadSame(r.(spawned := r.spawned - 1, state := Start));
    } else {
    }
  }

  lemma WriteFailSame(r: Relay, i: nat)
    requires Enabled(r, WriteFail(i))
    ensures Same(r, Apply(r, WriteFail(i)))
  {
  }

  lemma WriteDoneSame(r: Relay, i: nat)
    requires Enabled(r, WriteDone(i))
    ensures Same(r, Apply(r, WriteDone(i)))
  {
    var m := r.(writers := Without(r.writers, i), queue := r.queue[1..], written := r.written + [r.queue[0]]);
    assert Same(r, m);
    LoopHeadSame(m);
  }

  lemma StepSame(r: Relay, st: Step)
    requires Enabled(r, st) && !st.Accept? && st !in {StartOk, StartFail}
    ensures Same(r, Apply(r, st))
  {
    match st
    case Receive => ReceiveSame(r);
    case RunSpawned => RunSpawnedSame(r);
    case WriteDone(i) => WriteDoneSame(r, i);
    case WriteFail(i) => WriteFailSame(r, i);
    case CallStop =>
    case RunStop =>
  }

  lemma StepFrame(r: Relay, st: Step)
    requires Enabled(r, st)
    ensures var r' := Apply(r, st);
            && r'.kind == r.kind && r'.dials == r.dials && r'.offered == r.offered && r'.late == r.late
            && (r.stopCalled ==> r'.stopCalled) && (r.lost ==> r'.lost) && (r.startDone ==> r'.startDone)
            && r.out <= r'.out && (r'.out != r.out ==> st.Accept? && r.sock == Open)
            && (r'.sock == r.sock || r'.sock == Closed || (st == StartOk && r.dials))
            && (r'.startDone == r.startDone || st in {StartOk, StartFail})
            && (r'.timeout == r.timeout || r'.timeout == TIMEOUT)
  {
    match st
    case Accept(i, k) =>
    case StartOk =>
    case StartFail =>
    case _ => StepSame(r, st);
  }

  /** Only what came in with the head of the inbox is accepted. */
  lemma AcceptsWhatCame(r: Relay, q: Step)
    requires Enabled(r, q)
    ensures var r' := Apply(r, q);
            if q == Receive
            then r'.inbox == r.inbox[1..] && (r'.accepted == r.accepted || r'.accepted == r.accepted + Sends([r.inbox[0]]))
            else r'.inbox == r.inbox && r'.accepted == r.accepted
  {
    match q
    case Receive =>
      SendsOne(r.inbox[0]);
      match r.inbox[0] {
        case Halt =>
        case Send(b) => if r.state == Stop {} else {}
      }
    case WriteDone(i) =>
      var rest := r.queue[1..];
      if rest == [] {} else if r.state == Stop {} else {}
    case RunSpawned => if r.state == Init { if r.queue == [] {} else {} } else {}
    case _ =>
  }

  // ------------------------------------------------- the invariant is kept

  lemma PostKeepsCore(r: Relay, m: Message)
    requires Core(r)
    ensures Core(Post(r, m))
  {
    PostKeepsStream(r, m);
    PostKeepsStop(r, m);
    PostKeepsDial(r, m);
    assert DrainInv(Post(r, m));
  }

  lemma PostKeepsStop(r: Relay, m: Message)
    requires StopInv(r)
    ensures StopInv(Post(r, m))
  {
    assert Halt in r.inbox + [m] <==> Halt in r.inbox || m == Halt;
  }

  lemma PostKeepsStream(r: Relay, m: Message)
    requires StreamInv(r) && ByteInv(r)
    ensures StreamInv(Post(r, m)) && ByteInv(Post(r, m))
  {
    SendsSplit(r.inbox, [m]);
    SendsOne(m);
    match m
    case Halt => assert Sends(r.inbox) + [] == Sends(r.inbox);
    case Send(b) =>
      FlattenSplit(r.offered, [b]);
      FlattenSplit(Sends(r.inbox), [b]);
      FlattenOne(b);
      Associative(r.accepted, Sends(r.inbox), [b]);
      Associative(Flatten(r.accepted), Flatten(Sends(r.inbox)), b.bytes);
  }

  lemma PostKeepsDial(r: Relay, m: Message)
    requires Core(r)
    ensures DialInv(Post(r, m))
  {
    SendsSplit(r.inbox, [m]);
    SendsOne(m);
    if m.Send? && !r.stopCalled {
      assert Halt !in r.inbox;
    }
  }

  lemma PostKeepsInv(r: Relay, m: Message)
    requires Inv(r)
    ensures Inv(Post(r, m))
  {
    PostKeepsCore(r, m);
    if m.Send? {
      FlattenSplit(r.offered, [m.buf]);
    }
  }

  lemma RefuseKeepsCore(r: Relay, b: Buf)
    requires Core(r) && r.state == Stop
    ensures Core(Refuse(r, b))
  {
    FlattenSplit(r.offered, [b]);
    FlattenOne(b);
    if b.bytes == [] {
      assert Flatten(r.offered) + [] == Flatten(r.offered);
    }
  }

  lemma RefuseKeepsInv(r: Relay, b: Buf)
    requires Inv(r) && r.state == Stop
    ensures Inv(Refuse(r, b))
  {
    RefuseKeepsCore(r, b);
    FlattenSplit(r.offered, [b]);
  }

  /** Handling the head of the inbox, before its effect. */
  lemma TailInv(r: Relay)
    requires Core(r) && r.inbox != []
    ensures Sends(r.inbox) == Sends([r.inbox[0]]) + Sends(r.inbox[1..])
    ensures Halt in r.inbox[1..] ==> r.stopCalled
    ensures NoSendAfterHalt(r.inbox) ==> NoSendAfterHalt(r.inbox[1..])
    ensures NoSendAfterHalt(r.inbox) && r.inbox[0] == Halt ==> Sends(r.inbox[1..]) == []
  {
    var rest := r.inbox[1..];
    assert r.inbox == [r.inbox[0]] + rest;
    SendsSplit([r.inbox[0]], rest);
    if NoSendAfterHalt(r.inbox) {
      forall i, j | 0 <= i < j < |rest| && rest[i] == Halt
        ensures rest[j] == Halt
      {
        assert r.inbox[i + 1] == Halt;
        assert r.inbox[j + 1] == rest[j];
      }
      if r.inbox[0] == Halt {
        forall j | 0 <= j < |rest|
          ensures rest[j] == Halt
        {
          assert r.inbox[j + 1] == rest[j];
        }
        NoSends(rest);
      }
    }
  }

  lemma ReceiveKeepsCore(r: Relay)
    requires Core(r) && Enabled(r, Receive)
    ensures Core(Apply(r, Receive))
  {
    TailInv(r);
    SendsOne(r.inbox[0]);
    match r.inbox[0]
    case Halt => ReceiveHaltKeepsCore(r);
    case Send(b) => ReceiveSendKeepsCore(r, b);
  }

  lemma ReceiveHaltKeepsCore(r: Relay)
    requires Core(r) && r.inbox != [] && r.inbox[0] == Halt
    requires Sends(r.inbox) == Sends(r.inbox[1..])
    requires NoSendAfterHalt(r.inbox) ==> NoSendAfterHalt(r.inbox[1..]) && Sends(r.inbox[1..]) == []
    ensures Core(StopRelay(r.(inbox := r.inbox[1..])))
  {
  }

  lemma ReceiveSendKeepsCore(r: Relay, b: Buf)
    requires Core(r) && r.inbox != [] && r.inbox[0] == Send(b)
    requires Sends(r.inbox) == [b] + Sends(r.inbox[1..])
    requires Halt in r.inbox[1..] ==> r.stopCalled
    requires NoSendAfterHalt(r.inbox) ==> NoSendAfterHalt(r.inbox[1..])
    ensures Core(SendData(r.(inbox := r.inbox[1..]), b))
  {
    ReceiveSendKeepsBytes(r, b);
    if r.state != Stop {
      ReceiveSendKeepsStream(r, b);
      ReceiveSendKeepsDrain(r, b);
    }
  }

  lemma ReceiveSendKeepsDrain(r: Relay, b: Buf)
    requires DrainInv(r) && r.inbox != [] && r.state != Stop
    ensures DrainInv(SendData(r.(inbox := r.inbox[1..]), b))
  {
    var r' := SendData(r.(inbox := r.inbox[1..]), b);
    assert r.queue != [] ==> r'.queue[0] == r.queue[0];
  }

  lemma ReceiveSendKeepsStream(r: Relay, b: Buf)
    requires StreamInv(r) && r.inbox != [] && Sends(r.inbox) == [b] + Sends(r.inbox[1..])
    requires r.state != Stop
    ensures StreamInv(SendData(r.(inbox := r.inbox[1..]), b))
  {
    Associative(r.written, r.queue, [b]);
    Associative(r.accepted, [b], Sends(r.inbox[1..]));
  }

  lemma ReceiveSendKeepsBytes(r: Relay, b: Buf)
    requires ByteInv(r) && r.inbox != [] && Sends(r.inbox) == [b] + Sends(r.inbox[1..])
    ensures ByteInv(SendData(r.(inbox := r.inbox[1..]), b))
  {
    var rest := Sends(r.inbox[1..]);
    FlattenSplit([b], rest);
    FlattenOne(b);
    if r.state == Stop {
      assert b.bytes == [] ==> b.bytes + Flatten(rest) == Flatten(rest);
    } else {
      FlattenSplit(r.accepted, [b]);
      Associative(Flatten(r.accepted), b.bytes, Flatten(rest));
    }
  }

  lemma LoopHeadKeepsCore(r: Relay)
    requires r.writers == [] && r.torn == [] && r.startDone
    requires r.state in {Start, Stop}
    requires StreamInv(r) && ByteInv(r) && StopInv(r) && DialInv(r)
    ensures Core(LoopHead(r))
  {
    if r.queue == [] {
    } else if r.state == Stop {
    } else {
    }
  }

  lemma AcceptKeepsCore(r: Relay, i: nat, k: nat)
    requires Core(r) && Enabled(r, Accept(i, k))
    ensures Core(Apply(r, Accept(i, k)))
  {
    var r' := Apply(r, Accept(i, k));
    assert DrainInv(r') && StopInv(r') && DialInv(r') && ByteInv(r');
    AcceptKeepsStream(r, k);
  }

  lemma TakeMore(b: seq<byte>, n: nat, k: nat)
    requires n + k <= |b|
    ensures b[..n] + b[n..n + k] == b[..n + k]
  {
  }

  lemma AcceptKeepsStream(r: Relay, k: nat)
    requires Core(r) && Enabled(r, Accept(0, k))
    ensures StreamInv(Apply(r, Accept(0, k)))
  {
    hide Flatten;
    var b := r.queue[0].bytes;
    var n := r.writers[0].sent;
    TakeMore(b, n, k);
    Associative(Flatten(r.written), b[..n], b[n..n + k]);
  }

  /** Bytes taken so far, with the front frame partly out, are a prefix. */
  lemma OutPrefix(r: Relay)
    requires Core(r)
    ensures Flatten(r.written) <= r.out <= Flatten(r.accepted)
  {
    FlattenSplit(r.written, r.queue);
    if r.queue != [] && InFlight(r) != [] {
      assert InFlight(r) <= Flatten(r.queue);
    }
  }

  /** While nothing has been dropped, what was accepted is a prefix of what was
      offered. */
  lemma AcceptedPrefix(r: Relay)
    requires Core(r) && r.missed == 0
    ensures Flatten(r.accepted) <= Flatten(r.offered)
  {
  }

  lemma PopKeepsStream(r: Relay)
    requires Core(r) && r.writers != [] && r.writers[0].sent == |r.writers[0].buf.bytes|
    ensures StreamInv(r.(writers := [], queue := r.queue[1..], written := r.written + [r.queue[0]]))
  {
    var b := r.queue[0];
    FlattenSplit(r.written, [b]);
    FlattenOne(b);
    assert b.bytes[..|b.bytes|] == b.bytes;
    Associative(r.written, [b], r.queue[1..]);
    assert [b] + r.queue[1..] == r.queue;
  }

  lemma WriteDoneKeepsCore(r: Relay, i: nat)
    requires Core(r) && Enabled(r, WriteDone(i))
    ensures Core(Apply(r, WriteDone(i)))
  {
    assert Without(r.writers, i) == [];
    PopKeepsStream(r);
    LoopHeadKeepsCore(r.(writers := [], queue := r.queue[1..], written := r.written + [r.queue[0]]));
  }

  lemma RunSpawnedKeepsCore(r: Relay)
    requires Core(r) && Enabled(r, RunSpawned)
    ensures Core(Apply(r, RunSpawned))
  {
    if r.state == Init {
      LoopHeadKeepsCore(r.(spawned := r.spawned - 1, state := Start));
    }
  }

  /** Every step keeps the core, whatever was dropped before. */
  lemma StepKeepsCore(r: Relay, st: Step)
    requires Core(r) && Enabled(r, st)
    ensures Core(Apply(r, st))
  {
    match st
    case Receive => ReceiveKeepsCore(r);
    case RunSpawned => RunSpawnedKeepsCore(r);
    case Accept(i, k) => AcceptKeepsCore(r, i, k);
    case WriteDone(i) => WriteDoneKeepsCore(r, i);
    case WriteFail(i) => WriteFailKeepsCore(r, i);
    case CallStop =>
    case RunStop => RunStopKeepsCore(r);
    case StartOk => StartKeepsCore(r, st);
    case StartFail => StartKeepsCore(r, st);
  }

  lemma WriteFailKeepsCore(r: Relay, i: nat)
    requires Core(r) && Enabled(r, WriteFail(i))
    ensures Core(Apply(r, WriteFail(i)))
  {
    assert Without(r.writers, i) == [];
  }

  lemma RunStopKeepsCore(r: Relay)
    requires Core(r) && Enabled(r, RunStop)
    ensures Core(Apply(r, RunStop))
  {
  }

  lemma StartKeepsCore(r: Relay, st: Step)
    requires Core(r) && st in {StartOk, StartFail} && Enabled(r, st)
    ensures Core(Apply(r, st))
  {
  }

  /** A clean step keeps the stream whole: as long as the socket is open,
      nothing has been dropped. */
  lemma StepKeepsInv(r: Relay, st: Step)
    requires Inv(r) && Enabled(r, st) && Clean(r, st)
    ensures Inv(Apply(r, st))
  {
    StepKeepsCore(r, st);
    StepFrame(r, st);
    StepKeepsWhole(r, st);
  }

  lemma StepKeepsWhole(r: Relay, st: Step)
    requires Inv(r) && Enabled(r, st) && Clean(r, st) && Core(Apply(r, st))
    ensures Whole(Apply(r, st))
  {
    var r' := Apply(r, st);
    match st
    case Accept(i, k) =>
      OutPrefix(r');
      AcceptedPrefix(r');
    case StartOk =>
    case StartFail =>
    case Receive =>
      StepSame(r, st);
      match r.inbox[0] {
        case Halt =>
        case Send(b) => if r.state == Stop {} else {}
      }
    case _ =>
      StepSame(r, st);
      StepLosesNothing(r, st);
  }

  /** Only handling a message can drop a frame. */
  lemma StepLosesNothing(r: Relay, st: Step)
    requires Enabled(r, st) && st != Receive
    ensures Apply(r, st).lost == r.lost && Apply(r, st).missed == r.missed
  {
    match st
    case WriteDone(i) =>
      var q := r.queue[1..];
      if q == [] {} else if r.state == Stop {} else {}
    case RunSpawned => if r.state == Init { if r.queue == [] {} else {} } else {}
    case _ =>
  }

  lemma TimeoutKeepsCore(r: Relay)
    requires Core(r)
    ensures Core(TimeoutDown(r))
  {
    if r.timeout == 1 {
      CountersIrrelevantCore(r, 0);
      PostKeepsCore(r.(timeout := 0), Halt);
    } else if r.timeout > 1 {
      CountersIrrelevantCore(r, r.timeout - 1);
    }
  }

  lemma CountersIrrelevantCore(r: Relay, t: nat)
    requires Core(r) && t <= TIMEOUT
    ensures Core(r.(timeout := t))
  {
  }

  lemma TimeoutKeepsInv(r: Relay)
    requires Inv(r)
    ensures Inv(TimeoutDown(r))
  {
    TimeoutKeepsCore(r);
    if r.timeout == 1 {
    } else {
    }
  }

  lemma CountersIrrelevant(r: Relay, t: nat)
    requires Inv(r) && t <= TIMEOUT
    ensures Inv(r.(timeout := t))
  {
    CountersIrrelevantCore(r, t);
  }

  lemma EventKeepsCore(r: Relay, e: Event)
    requires Core(r) && CanHappen(r, e)
    ensures Core(Happen(r, e))
  {
    match e
    case Internal(st) => StepKeepsCore(r, st);
    case Posted(m) => PostKeepsCore(r, m);
    case Refused(b) => RefuseKeepsCore(r, b);
    case Tick => TimeoutKeepsCore(r);
    case Reset => CountersIrrelevantCore(r, TIMEOUT);
  }

  lemma EventKeepsInv(r: Relay, e: Event)
    requires Inv(r) && CanHappen(r, e) && CleanEvent(r, e)
    ensures Inv(Happen(r, e))
  {
    match e
    case Internal(st) => StepKeepsInv(r, st);
    case Posted(m) => PostKeepsInv(r, m);
    case Refused(b) => RefuseKeepsInv(r, b);
    case Tick => TimeoutKeepsInv(r);
    case Reset => CountersIrrelevant(r, TIMEOUT);
  }

  lemma {:induction false} RunKeepsCore(r: Relay, es: seq<Event>)
    requires Core(r) && Run(r, es)
    ensures Core(After(r, es))
    decreases |es|
  {
    if es != [] {
      EventKeepsCore(r, es[0]);
      RunKeepsCore(Happen(r, es[0]), es[1..]);
    }
  }

  lemma {:induction false} RunKeepsInv(r: Relay, es: seq<Event>)
    requires Inv(r) && Run(r, es) && CleanRun(r, es)
    ensures Inv(After(r, es))
    decreases |es|
  {
    if es != [] {
      EventKeepsInv(r, es[0]);
      RunKeepsInv(Happen(r, es[0]), es[1..]);
    }
  }
}
