/** A bound on the work that is left at one end of the proxy: every queued
    frame, live read loop and table entry weighs at least as much as all it can
    still cause. */
module Potential {
  import opened Bytes
  import opened RelayData
  import opened RelayQueue
  import opened SslReader
  import opened Endpoints
  import U = UdpTables

  function Sum(s: seq<int>): int {
    if s == [] then 0 else Sum(s[..|s| - 1]) + s[|s| - 1]
  }

  lemma SumAppend(s: seq<int>, x: int)
    ensures Sum(s + [x]) == Sum(s) + x
  {
    assert (s + [x])[..|s|] == s;
  }

  /** Element i changes by at most d, no other element grows. */
  lemma {:induction false} SumChange(a: seq<int>, b: seq<int>, i: nat, d: int)
    requires i < |a| == |b| && b[i] <= a[i] + d
    requires forall j | 0 <= j < |a| && j != i :: b[j] <= a[j]
    ensures Sum(b) <= Sum(a) + d
  {
    var n := |a| - 1;
    if i < n {
      SumChange(a[..n], b[..n], i, d);
    } else {
      SumLe(a[..n], b[..n]);
    }
  }

  lemma {:induction false} SumLe(a: seq<int>, b: seq<int>)
    requires |a| == |b| && forall j | 0 <= j < |a| :: b[j] <= a[j]
    ensures Sum(b) <= Sum(a)
  {
    if a != [] {
      SumLe(a[..|a| - 1], b[..|b| - 1]);
    }
  }

  lemma {:induction false} SumPair(a: seq<int>, b: seq<int>)
    requires |a| == |b| && forall j | 0 <= j < |a| :: a[j] + b[j] >= 0
    ensures Sum(a) + Sum(b) >= 0
  {
    if a != [] {
      SumPair(a[..|a| - 1], b[..|b| - 1]);
    }
  }

  lemma {:induction false} SumNat(a: seq<nat>)
    ensures Sum(a) >= 0
  {
    if a != [] {
      SumNat(a[..|a| - 1]);
    }
  }

  // ------------------------------------------------------------------ a relay

  /** Bytes count twice: once for the writer, once for the reader behind it. */
  function BufCost(b: Buf): nat {
    2 * |b.bytes| + 3
  }

  function QueueCost(bs: seq<Buf>): nat {
    if bs == [] then 0 else BufCost(bs[0]) + QueueCost(bs[1..])
  }

  function MessageCost(m: Message): nat {
    match m
    case Send(b) => BufCost(b) + 2
    case Halt => 1
  }

  function InboxCost(ms: seq<Message>): nat {
    if ms == [] then 0 else MessageCost(ms[0]) + InboxCost(ms[1..])
  }

  /** A queue behind which a drain works, or may still start. */
  function DrainCost(r: Relay): nat {
    if r.writers != [] && r.queue != [] && r.writers[0].sent <= |r.queue[0].bytes| then
      2 * (|r.queue[0].bytes| - r.writers[0].sent) + 2 + QueueCost(r.queue[1..])
    else if !r.startDone || r.state in {Uninit, Init} then QueueCost(r.queue)
    else 0
  }

  function RelayCost(r: Relay): nat {
    InboxCost(r.inbox) + r.spawned + r.stops + DrainCost(r) + if r.startDone then 0 else 2
  }

  lemma {:induction false} InboxAppend(ms: seq<Message>, m: Message)
    ensures InboxCost(ms + [m]) == InboxCost(ms) + MessageCost(m)
  {
    if ms == [] {
      assert (ms + [m])[1..] == [];
    } else {
      InboxAppend(ms[1..], m);
      assert (ms + [m])[1..] == ms[1..] + [m];
    }
  }

  lemma {:induction false} QueueAppend(bs: seq<Buf>, b: Buf)
    ensures QueueCost(bs + [b]) == QueueCost(bs) + BufCost(b)
  {
    if bs == [] {
      assert (bs + [b])[1..] == [];
    } else {
      QueueAppend(bs[1..], b);
      assert (bs + [b])[1..] == bs[1..] + [b];
    }
  }

  lemma PostCost(r: Relay, m: Message)
    ensures RelayCost(Post(r, m)) == RelayCost(r) + MessageCost(m)
  {
    InboxAppend(r.inbox, m);
  }

  lemma ReceiveCost(r: Relay)
    requires Core(r) && r.inbox != []
    ensures RelayCost(Apply(r, Receive)) < RelayCost(r)
  {
    hide StreamInv, ByteInv, StopInv, DialInv;
    var rest := r.(inbox := r.inbox[1..]);
    match r.inbox[0]
    case Halt => StoppingCost(rest);
    case Send(b) =>
      if r.state == Stop {
        assert RelayCost(SendData(rest, b)) == RelayCost(rest);
      } else {
        EnqueueCost(rest, b);
      }
  }

  lemma StoppingCost(r: Relay)
    requires DrainInv(r)
    ensures RelayCost(StopRelay(r)) <= RelayCost(r)
  {
  }

  lemma EnqueueCost(r: Relay, b: Buf)
    requires DrainInv(r) && r.state != Stop
    ensures RelayCost(SendData(r, b)) <= RelayCost(r) + BufCost(b) + 1
  {
    QueueAppend(r.queue, b);
    if r.writers != [] {
      assert (r.queue + [b])[0] == r.queue[0];
      QueueAppend(r.queue[1..], b);
      assert (r.queue + [b])[1..] == r.queue[1..] + [b];
    } else {
    }
  }

  lemma RunSpawnedCost(r: Relay)
    requires Core(r) && RelayQueue.Enabled(r, RunSpawned)
    ensures RelayCost(Apply(r, RunSpawned)) < RelayCost(r)
  {
    hide StreamInv, ByteInv, StopInv, DialInv;
    if r.state == Init {
      if r.queue == [] {} else {}
    } else {
    }
  }

  lemma WriteDoneCost(r: Relay, i: nat)
    requires Core(r) && RelayQueue.Enabled(r, WriteDone(i))
    ensures RelayCost(Apply(r, WriteDone(i))) < RelayCost(r)
  {
    hide StreamInv, ByteInv, StopInv, DialInv;
    assert Without(r.writers, i) == [];
    if r.queue[1..] == [] {} else if r.state == Stop {} else {}
  }

  /** Every step of a relay costs something, every byte its socket takes more. */
  lemma RelayStepCost(r: Relay, q: RelayQueue.Step)
    requires Core(r) && RelayQueue.Enabled(r, q) && q != CallStop
    ensures RelayCost(Apply(r, q)) + |Apply(r, q).out| < RelayCost(r) + |r.out|
  {
    hide StreamInv, ByteInv, StopInv, DialInv;
    match q
    case Receive => ReceiveCost(r); StepSame(r, q);
    case RunSpawned => RunSpawnedCost(r); StepSame(r, q);
    case Accept(i, k) =>
    case WriteDone(i) => WriteDoneCost(r, i); StepSame(r, q);
    case WriteFail(i) => assert Without(r.writers, i) == [];
    case RunStop =>
    case StartOk =>
    case StartFail =>
  }

  // ------------------------------------------------------------- weights

  /** A new TLS connection: both relays' start coroutines and two read loops. */
  const DIAL: nat := 6
  const OPEN: nat := 2 + DIAL

  /** STOP_TCP, once posted to the manager. */
  const STOP_SENT: nat := 2 * HEADER_SIZE + 5 + 2
  const STOP_REQUEST: nat := 1 + OPEN + STOP_SENT
  /** An entry of _relays may cause a stop_relay and a STOP_TCP. */
  const ENTRY: nat := 1 + OPEN + STOP_SENT
  /** A read loop ends once, with at most one STOP_TCP. */
  const READING: nat := 2 + STOP_REQUEST
  const NEW_RELAY: nat := 2 + READING + ENTRY

  /** What handling a frame in add_response may cause. */
  function Handling(f: Frame): nat {
    match f.cmd
    case StopTcp => 2
    case StartTcp => 2 + NEW_RELAY
    case DataTcp => 2 * |f.data| + 6
    case DataUdp => 2 * |f.data| + 6 + NEW_RELAY
    case StopUdp => 1
    case Unknown(_) => 1
  }

  /** A frame given to the TLS connection. */
  function Sending(f: Frame): nat {
    2 * (HEADER_SIZE + |f.data|) + 5 + Handling(f)
  }

  function AllHandling(fs: seq<Frame>): nat {
    if fs == [] then 0 else AllHandling(fs[..|fs| - 1]) + Handling(fs[|fs| - 1])
  }

  lemma HandlingAppend(fs: seq<Frame>, f: Frame)
    ensures AllHandling(fs + [f]) == AllHandling(fs) + Handling(f)
  {
    assert (fs + [f])[..|fs|] == fs;
  }

  lemma {:induction false} HandlingSplit(a: seq<Frame>, b: seq<Frame>)
    ensures AllHandling(a + b) == AllHandling(a) + AllHandling(b)
    decreases |b|
  {
    if b == [] {
      assert a + b == a;
    } else {
      HandlingSplit(a, b[..|b| - 1]);
      assert (a + b)[..|a + b| - 1] == a + b[..|b| - 1];
    }
  }

  lemma BufsHandling(a: seq<Buf>, b: seq<Buf>)
    ensures AllHandling(Frames(a + b)) == AllHandling(Frames(a)) + AllHandling(Frames(b))
  {
    assert Frames(a + b) == Frames(a) + Frames(b);
    HandlingSplit(Frames(a), Frames(b));
  }

  lemma {:induction false} HandlingPrefix(a: seq<Frame>, b: seq<Frame>)
    requires a <= b
    ensures AllHandling(a) <= AllHandling(b)
    decreases |b|
  {
    if |a| < |b| {
      HandlingPrefix(a, b[..|b| - 1]);
    } else {
      assert a == b;
    }
  }

  // ----------------------------------------------------------------- an end

  function OutboxCost(fs: seq<Frame>): nat {
    if fs == [] then 0 else 1 + OPEN + Sending(fs[0]) + OutboxCost(fs[1..])
  }

  lemma {:induction false} OutboxAppend(fs: seq<Frame>, f: Frame)
    ensures OutboxCost(fs + [f]) == OutboxCost(fs) + 1 + OPEN + Sending(f)
  {
    if fs == [] {
      assert (fs + [f])[1..] == [];
    } else {
      OutboxAppend(fs[1..], f);
      assert (fs + [f])[1..] == fs[1..] + [f];
    }
  }

  /** A START_TCP of the largest size, posted to a local manager. */
  const START_REQUEST: nat := 1 + OPEN + 2 * (HEADER_SIZE + READ_BUFFER_SIZE) + 5 + 2 + NEW_RELAY

  function LoopCost(l: Loop, remote: bool): nat {
    match l
    case NotStarted => if remote then READING else READING + 1 + START_REQUEST
    case Reading => READING
    case Over => 0
  }

  /** A failed SOCKS reply causes a stop and a STOP_TCP, too. */
  const REPLY: nat := 2 + STOP_REQUEST

  function ReplyCost(o: Obj, remote: bool): nat {
    if o.replying || (!remote && !o.relay.startDone) then REPLY else 0
  }

  function ObjCost(o: Obj, remote: bool, inTable: bool): nat {
    RelayCost(o.relay) + OutboxCost(o.outbox) + LoopCost(o.loop, remote) + ReplyCost(o, remote)
    + if inTable then ENTRY else 0
  }

  function ObjCosts(e: Endpoint): (s: seq<nat>)
    ensures |s| == |e.objs|
    ensures forall i | 0 <= i < |s| :: s[i] == ObjCost(e.objs[i], e.role == RemoteServer, InTable(e, i))
  {
    seq(|e.objs|, i requires 0 <= i < |e.objs| => ObjCost(e.objs[i], e.role == RemoteServer, InTable(e, i)))
  }

  /** A connection's relay, all that it has accepted or may still accept and the
      bytes it has written included. */
  function SslCost(r: Relay): nat {
    RelayCost(r) + AllHandling(Frames(r.accepted)) + AllHandling(Frames(Sends(r.inbox))) + |r.out|
  }

  function SslCosts(ssls: seq<Relay>): (s: seq<nat>)
    ensures |s| == |ssls| && forall k | 0 <= k < |s| :: s[k] == SslCost(ssls[k])
  {
    seq(|ssls|, k requires 0 <= k < |ssls| => SslCost(ssls[k]))
  }

  function SenderCosts(ws: seq<U.Sender>): (s: seq<nat>)
    ensures |s| == |ws| && forall k | 0 <= k < |s| :: s[k] == 2 * |ws[k].inbox| + |ws[k].queue|
  {
    seq(|ws|, k requires 0 <= k < |ws| => 2 * |ws[k].inbox| + |ws[k].queue|)
  }

  function EndCost(e: Endpoint): int {
    Sum(ObjCosts(e)) + Sum(SslCosts(e.ssls)) + Sum(SenderCosts(e.udp.senders))
  }

  /** A frame is accepted or dropped, not copied. */
  lemma HandlingFlows(r: Relay, q: RelayQueue.Step)
    requires RelayQueue.Enabled(r, q)
    ensures var r' := Apply(r, q);
            AllHandling(Frames(r'.accepted)) + AllHandling(Frames(Sends(r'.inbox)))
            <= AllHandling(Frames(r.accepted)) + AllHandling(Frames(Sends(r.inbox)))
  {
    AcceptsWhatCame(r, q);
    if q == Receive {
      assert r.inbox == [r.inbox[0]] + r.inbox[1..];
      SendsSplit([r.inbox[0]], r.inbox[1..]);
      BufsHandling(Sends([r.inbox[0]]), Sends(r.inbox[1..]));
      BufsHandling(r.accepted, Sends([r.inbox[0]]));
    }
  }
}
