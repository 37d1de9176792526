/** base_relay as an object: its fields, the handlers that run on its strand and
    the drain coroutine, each proved to do what RelayQueue says. */
module BaseRelays {
  import opened Bytes
  import opened RelayData
  import Q = RelayQueue
  import T = QueueTheorems

  /** One suspension of the drain: what else happens to the relay meanwhile,
      and whether the write then completes. */
  datatype Await = Await(during: seq<Q.Event>, ok: bool)

  function Completion(ok: bool): Q.Event {
    Q.Internal(if ok then Q.WriteDone(0) else Q.WriteFail(0))
  }

  /** The events of a schedule, in order. */
  function Trace(schedule: seq<Await>): seq<Q.Event> {
    if schedule == [] then []
    else schedule[0].during + ([Completion(schedule[0].ok)] + Trace(schedule[1..]))
  }

  /** Nobody but the drain itself completes its write. */
  predicate Others(es: seq<Q.Event>) {
    forall i | 0 <= i < |es| :: !(es[i].Internal? && (es[i].step.WriteDone? || es[i].step.WriteFail?))
  }

  class BaseRelay {
    const kind: Q.Kind
    const dials: bool
    var state: Q.State
    var sock: Q.Socket
    var inbox: seq<Q.Message>
    var bufs: seq<Q.Buf>
    var spawned: nat
    var stops: nat
    var writers: seq<Q.Writer>
    var startDone: bool
    var timeout: nat
    ghost var offered: seq<Q.Buf>
    ghost var accepted: seq<Q.Buf>
    ghost var written: seq<Q.Buf>
    ghost var out: seq<byte>
    ghost var torn: seq<byte>
    ghost var lost: bool
    ghost var missed: nat
    ghost var late: bool
    ghost var stopCalled: bool

    ghost function View(): Q.Relay
      reads this
    {
      Q.Relay(kind, dials, state, sock, inbox, bufs, spawned, stops, writers, startDone, timeout,
              offered, accepted, written, out, torn, lost, missed, late, stopCalled)
    }

    constructor (k: Q.Kind, d: bool)
      ensures View() == Q.Fresh(k, d) && Q.Core(View())
    {
      kind, dials, state, sock := k, d, Q.Uninit, if d then Q.Unopened else Q.Open;
      inbox, bufs, spawned, stops, writers, startDone, timeout := [], [], 0, 0, [], false, TIMEOUT;
      offered, accepted, written, out, torn := [], [], [], [], [];
      lost, missed, late, stopCalled := false, 0, false, false;
    }

    /** run_in_strand from another strand: the handler is queued. */
    method Post(m: Q.Message)
      modifies this
      ensures View() == Q.Post(old(View()), m)
    {
      inbox := inbox + [m];
      match m
      case Send(b) =>
        offered, late := offered + [b], late || stopCalled;
      case Halt =>
        stopCalled := true;
    }

    /** start_send: spawns the drain coroutine. */
    method StartSend()
      modifies `spawned
      ensures spawned == old(spawned) + 1
    {
      spawned := spawned + 1;
    }

    /** The handler send_data posts. */
    method SendData(b: Q.Buf)
      modifies this
      ensures View() == Q.SendData(old(View()), b)
    {
      if state == Q.Stop {
        lost, missed := true, missed + |b.bytes|;
        return;
      }
      bufs := bufs + [b];
      accepted := accepted + [b];
      if state == Q.Init && |bufs| == 1 {
        StartSend();
      }
    }

    /** The handler stop_relay posts. raw_tcp leaves a stopped relay alone. */
    method StopRelay()
      requires Q.StopInv(View())
      modifies this
      ensures View() == Q.StopRelay(old(View()))
    {
      if kind == Q.RawTcp && state == Q.Stop {
        return;
      }
      state := Q.Stop;
      sock := Q.Closed;
      stopCalled := true;
    }

    /** The strand runs the next handler. */
    method Receive()
      requires inbox != [] && Q.StopInv(View())
      modifies this
      ensures View() == Q.Apply(old(View()), Q.Receive)
    {
      var m := inbox[0];
      inbox := inbox[1..];
      match m
      case Send(b) => SendData(b);
      case Halt =>
        assert forall x | x in inbox :: x in old(inbox);
        StopRelay();
    }

    method ResetTimeout()
      modifies `timeout
      ensures View() == Q.ResetTimeout(old(View()))
    {
      timeout := TIMEOUT;
    }

    /** timeout_down: returns what is left of the counter, and stops at zero. */
    method TimeoutDown() returns (left: nat)
      modifies this
      ensures View() == Q.TimeoutDown(old(View())) && left == timeout
      ensures left == 0 <==> old(timeout) <= 1
    {
      if timeout == 0 {
        return 0;
      }
      timeout := timeout - 1;
      if timeout == 0 {
        Post(Q.Halt);
      }
      return timeout;
    }

    /** A read loop, or a failed write, calls stop_relay on this strand. */
    method CallStop()
      modifies this
      ensures View() == old(View()).(stops := old(stops) + 1, stopCalled := true)
    {
      stops := stops + 1;
      stopCalled := true;
    }

    /** The end of the start coroutine. */
    method Start(ok: bool)
      requires !startDone
      modifies this
      ensures View() == Q.Apply(old(View()), if ok then Q.StartOk else Q.StartFail)
    {
      startDone := true;
      if ok {
        if dials {
          sock := Q.Open;
        }
        state := Q.Init;
        StartSend();
      } else {
        CallStop();
      }
    }

    /** The socket takes k more bytes of a pending write. */
    method TakeBytes(i: nat, k: nat)
      requires Q.Enabled(View(), Q.Accept(i, k))
      modifies this
      ensures View() == Q.Apply(old(View()), Q.Accept(i, k))
    {
      var w := writers[i];
      writers := writers[i := Q.Writer(w.buf, w.sent + k)];
      out := out + w.buf.bytes[w.sent..w.sent + k];
    }

    /** Everything that can happen while a drain is suspended. */
    method Dispatch(e: Q.Event)
      requires Q.CanHappen(View(), e) && Others([e]) && Q.Core(View())
      requires e == Q.Internal(Q.RunSpawned) ==> state != Q.Init
      modifies this
      ensures View() == Q.Happen(old(View()), e)
    {
      hide Q.Core, Q.Apply, Q.Enabled;
      assert [e][0] == e;
      match e {
        case Internal(st) => DispatchStep(st);
        case Posted(m) => Post(m);
        case Refused(b) => offered, lost, missed, late := offered + [b], true, missed + |b.bytes|, true;
        case Tick => var _ := TimeoutDown();
        case Reset => ResetTimeout();
      }
    }

    method DispatchStep(st: Q.Step)
      requires Q.Enabled(View(), st) && !st.WriteDone? && !st.WriteFail? && Q.Core(View())
      requires st == Q.RunSpawned ==> state != Q.Init
      modifies this
      ensures View() == Q.Apply(old(View()), st)
    {
      hide Q.DrainInv, Q.StreamInv, Q.ByteInv, Q.DialInv;
      match st {
        case Receive => Receive();
        case RunSpawned => spawned := spawned - 1;  // state is not INIT: the coroutine returns
        case Accept(i, k) => TakeBytes(i, k);
        case CallStop => CallStop();
        case RunStop =>
          stops := stops - 1;
          StopRelay();
        case StartOk => Start(true);
        case StartFail => Start(false);
      }
    }

    /** The loop takes the front buffer and starts to write it. */
    method BeginWrite()
      requires bufs != [] && state != Q.Stop
      modifies this
      ensures View() == Q.LoopHead(old(View()))
    {
      ResetTimeout();
      writers := writers + [Q.Writer(bufs[0], 0)];
    }

    /** The write threw: the coroutine ends in stop_relay. */
    method WriteThrew()
      requires Q.Core(View()) && writers != []
      modifies this
      ensures View() == Q.Apply(old(View()), Q.WriteFail(0)) && writers == []
    {
      torn := writers[0].buf.bytes[..writers[0].sent];
      writers := Q.Without(writers, 0);
      CallStop();
    }

    /** The write completed: the buffer is popped. */
    method PopFront()
      requires Q.Core(View()) && Q.Enabled(View(), Q.WriteDone(0))
      modifies this
      ensures writers == [] && Q.LoopHead(View()) == Q.Apply(old(View()), Q.WriteDone(0))
    {
      written := written + [bufs[0]];
      bufs := bufs[1..];
      writers := Q.Without(writers, 0);
    }

    /** co_await: the other events of one suspension. */
    method Suspend(during: seq<Q.Event>)
      requires Q.Core(View()) && writers != [] && Others(during) && Q.Run(View(), during)
      modifies this
      ensures View() == Q.After(old(View()), during) && Q.Core(View())
      ensures |writers| == 1 && writers[0].buf == old(writers[0].buf) && bufs != [] && bufs[0] == writers[0].buf
    {
      ghost var r0 := View();
      var j := 0;
      while j < |during|
        invariant 0 <= j <= |during|
        invariant Q.Core(View()) && writers != [] && writers[0].buf == r0.writers[0].buf
        invariant Q.Run(View(), during[j..]) && Q.After(View(), during[j..]) == Q.After(r0, during)
      {
        assert during[j..][1..] == during[j + 1..] && during[j..][0] == during[j];
        OthersKeepWriter(View(), during[j]);
        Q.EventKeepsCore(View(), during[j]);
        Dispatch(during[j]);
        j := j + 1;
      }
    }

    /** The write of the front buffer, up to the pop or the exception. */
    method AwaitWrite(ghost r0: Q.Relay, schedule: seq<Await>, n: nat)
      requires n < |schedule| && Others(schedule[n].during)
      requires Q.Core(r0) && Reached(r0, View(), schedule, n) && writers != []
      modifies this
      ensures writers == []
      ensures Reached(r0, if schedule[n].ok then Q.LoopHead(View()) else View(), schedule, n + 1)
    {
      ReachedInv(r0, View(), schedule, n);
      Advance(r0, View(), schedule, n);
      Suspend(schedule[n].during);
      Q.EventKeepsCore(View(), Completion(schedule[n].ok));
      if schedule[n].ok {
        PopFront();
      } else {
        WriteThrew();
      }
    }

    /** The coroutine start_send spawns, run through a schedule of suspensions.
        It consumes n of them: fewer than all only when it has ended, none when
        its state check fails. */
    method DrainTask(schedule: seq<Await>) returns (n: nat)
      requires Q.Core(View()) && spawned > 0 && Q.Run(View(), [Q.Internal(Q.RunSpawned)] + Trace(schedule))
      requires forall i | 0 <= i < |schedule| :: Others(schedule[i].during)
      modifies this
      ensures n <= |schedule|
      ensures if old(state) == Q.Init then n < |schedule| ==> writers == [] else n == 0
      ensures Reached(old(View()), View(), schedule, n)
    {
      ghost var r0 := View();
      ReachedStart(r0, schedule);
      n := 0;
      var go := CheckState();
      if go {
        n := DrainLoop(r0, schedule);
      }
    }

    /** The coroutine's first lines: only INIT starts a drain. */
    method CheckState() returns (go: bool)
      requires spawned > 0
      modifies this
      ensures go == (old(state) == Q.Init) && writers == old(writers)
      ensures (if go then Q.LoopHead(View()) else View()) == Q.Apply(old(View()), Q.RunSpawned)
    {
      spawned := spawned - 1;
      go := state == Q.Init;
      if go {
        state := Q.Start;
      }
    }

    /** The coroutine's loop and its `state = RELAY_INIT`, which also overwrites a
        STOP that came in during the last write. */
    method DrainLoop(ghost r0: Q.Relay, schedule: seq<Await>) returns (n: nat)
      requires Q.Core(r0) && writers == [] && Reached(r0, Q.LoopHead(View()), schedule, 0)
      requires forall i | 0 <= i < |schedule| :: Others(schedule[i].during)
      modifies this
      ensures n <= |schedule| && (n < |schedule| ==> writers == [])
      ensures Reached(r0, View(), schedule, n)
    {
      n := 0;
      while bufs != []
        invariant n <= |schedule| && writers == []
        invariant Reached(r0, Q.LoopHead(View()), schedule, n)
        decreases |schedule| - n
      {
        if state == Q.Stop {
          return;
        }
        BeginWrite();
        if n == |schedule| {
          return;
        }
        AwaitWrite(r0, schedule, n);
        n := n + 1;
        if !schedule[n - 1].ok {
          return;
        }
      }
      state := Q.Init;
    }
  }

  /** r is what the coroutine's check and the first n awaits lead to, and the
      rest of the schedule can still happen. */
  ghost predicate Reached(r0: Q.Relay, r: Q.Relay, schedule: seq<Await>, n: nat)
    requires n <= |schedule|
  {
    var es := [Q.Internal(Q.RunSpawned)] + Trace(schedule[..n]);
    Q.Run(r0, es) && Q.After(r0, es) == r && Q.Run(r, Trace(schedule[n..]))
  }

  lemma ReachedInv(r0: Q.Relay, r: Q.Relay, schedule: seq<Await>, n: nat)
    requires n <= |schedule| && Q.Core(r0) && Reached(r0, r, schedule, n)
    ensures Q.Core(r)
  {
    Q.RunKeepsCore(r0, [Q.Internal(Q.RunSpawned)] + Trace(schedule[..n]));
  }

  lemma ReachedStart(r0: Q.Relay, schedule: seq<Await>)
    requires Q.Run(r0, [Q.Internal(Q.RunSpawned)] + Trace(schedule))
    ensures Q.Enabled(r0, Q.RunSpawned)
    ensures Reached(r0, Q.Apply(r0, Q.RunSpawned), schedule, 0)
  {
    var check := [Q.Internal(Q.RunSpawned)];
    assert schedule[..0] == [] && schedule[0..] == schedule;
    assert check + Trace(schedule[..0]) == check;
    T.RunSplit(r0, check, Trace(schedule));
    T.RunOne(r0, check[0]);
  }

  lemma {:induction false} TraceSplit(a: seq<Await>, b: seq<Await>)
    ensures Trace(a + b) == Trace(a) + Trace(b)
  {
    if a == [] {
      assert a + b == b;
    } else {
      TraceSplit(a[1..], b);
      assert (a + b)[1..] == a[1..] + b;
      var c := [Completion(a[0].ok)];
      Associative(c, Trace(a[1..]), Trace(b));
      Associative(a[0].during, c + Trace(a[1..]), Trace(b));
    }
  }

  lemma TraceOne(a: Await)
    ensures Trace([a]) == a.during + [Completion(a.ok)]
  {
    assert [a][1..] == [];
    assert [Completion(a.ok)] + [] == [Completion(a.ok)];
  }

  /** One more await. */
  lemma Advance(r0: Q.Relay, r: Q.Relay, schedule: seq<Await>, n: nat)
    requires n < |schedule| && Reached(r0, r, schedule, n)
    ensures var a := schedule[n];
            && Q.Run(r, a.during) && Q.CanHappen(Q.After(r, a.during), Completion(a.ok))
            && Reached(r0, Q.Happen(Q.After(r, a.during), Completion(a.ok)), schedule, n + 1)
  {
    var a := schedule[n];
    var c := Completion(a.ok);
    var check := [Q.Internal(Q.RunSpawned)];
    assert schedule[n..] == [a] + schedule[n + 1..];
    TraceSplit([a], schedule[n + 1..]);
    TraceOne(a);
    T.RunSplit(r, Trace([a]), Trace(schedule[n + 1..]));
    T.RunSplit(r, a.during, [c]);
    T.RunOne(Q.After(r, a.during), c);
    assert schedule[..n + 1] == schedule[..n] + [a];
    TraceSplit(schedule[..n], [a]);
    Associative(check, Trace(schedule[..n]), Trace([a]));
    T.RunSplit(r0, check + Trace(schedule[..n]), Trace([a]));
  }

  /** While a drain is suspended, nothing else touches its buffer and no second
      drain gets past the state check. */
  lemma OthersKeepWriter(r: Q.Relay, e: Q.Event)
    requires Q.Core(r) && r.writers != [] && Q.CanHappen(r, e)
    requires !(e.Internal? && (e.step.WriteDone? || e.step.WriteFail?))
    ensures |Q.Happen(r, e).writers| == 1 && Q.Happen(r, e).writers[0].buf == r.writers[0].buf
    ensures e == Q.Internal(Q.RunSpawned) ==> r.state != Q.Init
  {
    match e
    case Internal(Receive) =>
      match r.inbox[0] {
        case Send(b) => if r.state == Q.Stop {} else {}
        case Halt =>
      }
    case Internal(_) =>
    case Posted(m) =>
    case Refused(b) =>
    case Tick => if r.timeout == 1 {} else {}
    case Reset =>
  }
}
