/** What puts a relay's idle counter back, and how long a relay that is used
    stays in _relays: the other half of IdleExpiry. */
module Activity {
  import opened Bytes
  import opened RelayData
  import opened RelayQueue
  import opened SslReader
  import opened Endpoints
  import opened Sessions
  import opened IdleCounter
  import opened IdleExpiry
  import U = UdpTables

  // -------------------------------------------------------- what resets it

  /** The steps with which a relay starts to write a buffer: a spawned drain that
      finds INIT and something queued, and a completed write with more behind it
      unless the relay has stopped. */
  predicate BeginsWrite(r: Relay, q: RelayQueue.Step) {
    || (q == RunSpawned && r.state == Init && r.queue != [])
    || (q.WriteDone? && |r.queue| > 1 && r.state != Stop)
  }

  /** Those steps, and no others, start a write; they put the counter to 9 and
      every other step of the relay's strand leaves it. */
  lemma WritesReset(r: Relay, q: RelayQueue.Step)
    requires RelayQueue.Enabled(r, q)
    ensures var r' := Apply(r, q);
            if BeginsWrite(r, q)
            then r'.timeout == TIMEOUT && r'.writers != [] && r'.queue != []
                 && r'.writers[|r'.writers| - 1] == Writer(r'.queue[0], 0)
            else r'.timeout == r.timeout && |r'.writers| <= |r.writers|
  {
    match q
    case Receive =>
      match r.inbox[0] {
        case Halt =>
        case Send(b) => if r.state == Stop {} else {}
      }
    case RunSpawned => if r.state == Init && r.queue == [] {} else {}
    case _ =>
  }

  /** A relay that reads: the bytes are posted as DATA_TCP of its session and the
      counter is 9. */
  lemma ReadsReset(e: Endpoint, i: nat, data: seq<byte>)
    requires Endpoints.Enabled(e, ReadSome(i, data))
    ensures var o := e.objs[i];
            var e' := Endpoints.Do(e, ReadSome(i, data));
            && e'.objs[i].relay == o.relay.(timeout := TIMEOUT) && e'.objs[i].input == o.input + data
            && e'.objs[i].outbox == o.outbox + [Frame(o.session, DataTcp, data)]
            && e'.relays == e.relays && (forall j | 0 <= j < |e.objs| && j != i :: e'.objs[j] == e.objs[j])
  {
  }

  /** A connection that brings a frame: its counter is 9. A read that fails, or a
      header that is refused, leaves the counter and stops the connection. */
  lemma FramesReset(w: World, st: Sessions.Step, c: nat)
    requires Sessions.Enabled(w, st) && c < |w.conns|
    requires st.UpRead? && st.c == c
    ensures var w' := Sessions.Do(w, st);
            var r, r' := w.conns[c].remote.ssls[0], w'.conns[c].remote.ssls[0];
            && (w'.conns[c].up.delivered != w.conns[c].up.delivered ==> r'.timeout == TIMEOUT)
            && (w'.conns[c].up.delivered == w.conns[c].up.delivered ==> r'.timeout == r.timeout)
            && (w'.conns[c].up.phase.Ended? ==> r'.stopCalled && r'.stops == r.stops + 1)
  {
  }

  lemma FramesResetDown(w: World, st: Sessions.Step, c: nat)
    requires Sessions.Enabled(w, st) && c < |w.conns|
    requires st.DownRead? && st.c == c
    ensures var w' := Sessions.Do(w, st);
            var r, r' := w.local.ssls[c], w'.local.ssls[c];
            && (w'.conns[c].down.delivered != w.conns[c].down.delivered ==> r'.timeout == TIMEOUT)
            && (w'.conns[c].down.delivered == w.conns[c].down.delivered ==> r'.timeout == r.timeout)
            && (w'.conns[c].down.phase.Ended? ==> r'.stopCalled && r'.stops == r.stops + 1)
  {
  }

  // -------------------------------------------------------- in any behaviour

  /** Relay v reads, or starts to write. */
  predicate Refreshes(e: Endpoint, m: Move, v: nat) {
    match m
    case Own(ReadSome(i, _)) => i == v
    case Own(ObjStep(i, q)) => i == v && v < |e.objs| && BeginsWrite(e.objs[v].relay, q)
    case _ => false
  }

  predicate IsTick(m: Move) {
    m.Own? && m.st.TimerTick?
  }

  /** Moves that do not take relay v out of the table by other means: no STOP_TCP
      or START_TCP of its session, no data once it has stopped, the end does not
      give up. Reading, writing and being sent to are all allowed. */
  predicate Undisturbed(e: Endpoint, m: Move, s: nat, v: nat) {
    match m
    case Own(Request(_)) => SslOk(e) && !GivesUp(e)
    case Own(TimerTick(_)) => SslOk(e) && !(SslIdle(e) && e.role == RemoteServer)
    case Handles(f) =>
      && SslOk(e) && !GivesUp(e)
      && (f.session == s ==> f.cmd !in {StartTcp, StopTcp} && v < |e.objs| && e.objs[v].relay.state != Stop)
    case _ => true
  }

  /** What a move is to the idle counter of relay v. */
  function RelayMark(e: Endpoint, m: Move, v: nat): Mark {
    if Refreshes(e, m, v) then Used else if IsTick(m) then Ticked else Neither
  }

  function RelayMarks(es: seq<Endpoint>, ms: seq<Move>, v: nat): (marks: seq<Mark>)
    requires |es| == |ms| + 1
    ensures |marks| == |ms| && forall j | 0 <= j < |ms| :: marks[j] == RelayMark(es[j], ms[j], v)
  {
    seq(|ms|, j requires 0 <= j < |ms| => RelayMark(es[j], ms[j], v))
  }

  /** Relay v has the session's entry. */
  predicate IsIn(e: Endpoint, s: nat, v: nat) {
    v < |e.objs| && e.objs[v].session == s && s in e.relays && e.relays[s] == Some(v)
  }

  /** One move of that kind: what becomes of the entry and the counter l. */
  predicate Counts(e: Endpoint, m: Move, e': Endpoint, s: nat, v: nat) {
    if Refreshes(e, m, v) then IsIn(e', s, v) && e'.objs[v].relay.timeout == TIMEOUT
    else if IsTick(m) then
      && v < |e.objs| && v < |e'.objs|
      && if e.objs[v].relay.timeout > 1
         then IsIn(e', s, v) && e'.objs[v].relay == e.objs[v].relay.(timeout := e.objs[v].relay.timeout - 1)
         else s !in e'.relays && e'.objs[v].relay.stopCalled
    else v < |e.objs| && IsIn(e', s, v) && e'.objs[v].relay.timeout == e.objs[v].relay.timeout
  }

  lemma ObjStepCounts(e: Endpoint, i: nat, q: RelayQueue.Step, s: nat, v: nat)
    requires Endpoints.Enabled(e, ObjStep(i, q)) && IsIn(e, s, v)
    ensures Counts(e, Own(ObjStep(i, q)), Endpoints.Do(e, ObjStep(i, q)), s, v)
  {
    hide BeginsWrite;
    WritesReset(e.objs[i].relay, q);
    if i == v {} else {}
  }

  lemma OwnCounts(e: Endpoint, st: Endpoints.Step, s: nat, v: nat)
    requires Endpoints.Enabled(e, st) && IsIn(e, s, v) && Undisturbed(e, Own(st), s, v) && !st.TimerTick?
    ensures Counts(e, Own(st), Endpoints.Do(e, st), s, v)
  {
    match st
    case ObjStep(i, q) => ObjStepCounts(e, i, q, s, v);
    case ReadSome(i, data) => ReadsReset(e, i, data);
    case AcceptTcp =>
    case Request(i) => RequestAlone(TakeRequest(e, i), e.objs[i].outbox[0], s, v);
    case _ => OwnAlone(e, st, s, v);
  }

  lemma TickCounts(e: Endpoint, order: seq<U.Client>, s: nat, v: nat)
    requires CanTick(e, order) && IsIn(e, s, v) && !(SslIdle(e) && e.role == RemoteServer)
    requires e.objs[v].relay.timeout >= 1
    ensures Counts(e, Own(TimerTick(order)), TimerTurn(e, order), s, v)
  {
    hide TimerTurn;
    TurnCounts(e, order, s, v);
    if e.objs[v].relay.timeout == 1 {} else {}
  }

  /** A message posted to relay v, or a change that leaves all relays alone. */
  lemma PostCounts(e: Endpoint, m: Move, e': Endpoint, s: nat, v: nat)
    requires IsIn(e, s, v) && m.Handles? && |e'.objs| == |e.objs| && e'.relays == e.relays
    requires e'.objs[v].session == e.objs[v].session
    requires e'.objs[v].relay.timeout == e.objs[v].relay.timeout
    ensures Counts(e, m, e', s, v)
  {
  }

  /** Frames of the session itself that are not START_TCP or STOP_TCP. */
  lemma UsedCounts(e: Endpoint, f: Frame, s: nat, v: nat)
    requires CanHandle(e, f) && IsIn(e, s, v) && f.session == s && f.cmd !in {StartTcp, StopTcp}
    requires e.objs[v].relay.state != Stop
    ensures Counts(e, Handles(f), AddResponse(e, f), s, v)
  {
    hide Counts, Load;
    match f.cmd
    case DataTcp => PostCounts(e, Handles(f), AddResponse(e, f), s, v);
    case DataUdp =>
      match e.role {
        case RemoteServer => PostCounts(e, Handles(f), AddResponse(e, f), s, v);
        case LocalServer => PostCounts(e, Handles(f), AddResponse(e, f), s, v);
        case LocalTransparent => PostCounts(e, Handles(f), AddResponse(e, f), s, v);
      }
    case StopUdp => PostCounts(e, Handles(f), AddResponse(e, f), s, v);
    case Unknown(_) => PostCounts(e, Handles(f), AddResponse(e, f), s, v);
  }

  lemma MoveCounted(e: Endpoint, m: Move, s: nat, v: nat)
    requires CanMove(e, m) && IsIn(e, s, v) && e.objs[v].relay.timeout >= 1 && Undisturbed(e, m, s, v)
    ensures Counts(e, m, Moved(e, m), s, v)
  {
    match m
    case Own(st) =>
      if st.TimerTick? {
        TickCounts(e, st.order, s, v);
      } else {
        OwnCounts(e, st, s, v);
      }
    case Handles(f) =>
      if f.session == s {
        UsedCounts(e, f, s, v);
      } else {
        HandlesAlone(e, f, s, v);
      }
    case _ =>
  }

  /** The idle counter, exactly, in any behaviour that takes the relay out by no
      other means: as long as ticks are left, the relay is in the table with that
      count; the tick that uses up the last one takes it out and stops it. */
  lemma {:induction false} BusyExact(es: seq<Endpoint>, ms: seq<Move>, s: nat, v: nat, b: nat)
    requires EndBehaviour(es, ms) && b <= |ms| && IsIn(es[0], s, v) && es[0].objs[v].relay.timeout >= 1
    requires forall j {:trigger ms[j]} | 0 <= j < b :: Undisturbed(es[j], ms[j], s, v)
    requires forall j | 0 <= j < b :: Left(RelayMarks(es, ms, v), es[0].objs[v].relay.timeout, j) >= 1
    ensures var l := Left(RelayMarks(es, ms, v), es[0].objs[v].relay.timeout, b);
            if l >= 1 then IsIn(es[b], s, v) && es[b].objs[v].relay.timeout == l
            else s !in es[b].relays && v < |es[b].objs| && es[b].objs[v].relay.stopCalled
    decreases b
  {
    hide CanMove, Moved, Undisturbed, Refreshes;
    if b > 0 {
      BusyExact(es, ms, s, v, b - 1);
      assert Left(RelayMarks(es, ms, v), es[0].objs[v].relay.timeout, b - 1) >= 1;
      MoveCounted(es[b - 1], ms[b - 1], s, v);
    }
  }

  /** A relay that reads or starts to write at least once in every stretch of
      eight ticks is never taken out or stopped by the timer: it is in the table
      all the time, and a tick changes nothing of it but the counter. */
  lemma UsedIsKept(es: seq<Endpoint>, ms: seq<Move>, s: nat, v: nat, b: nat)
    requires EndBehaviour(es, ms) && b <= |ms| && IsIn(es[0], s, v) && 1 <= es[0].objs[v].relay.timeout <= TIMEOUT
    requires forall j {:trigger ms[j]} | 0 <= j < b :: Undisturbed(es[j], ms[j], s, v)
    requires forall j | 0 <= j <= b :: RecentlyUsed(RelayMarks(es, ms, v), es[0].objs[v].relay.timeout, j)
    ensures IsIn(es[b], s, v) && es[b].objs[v].relay.timeout >= 1
    ensures b > 0 && IsTick(ms[b - 1]) ==>
              v < |es[b - 1].objs| && es[b].objs[v].relay.inbox == es[b - 1].objs[v].relay.inbox
              && es[b].objs[v].relay.state == es[b - 1].objs[v].relay.state
  {
    hide CanMove, Moved, Undisturbed, Refreshes, RecentlyUsed, Left;
    var t := es[0].objs[v].relay.timeout;
    var marks := RelayMarks(es, ms, v);
    forall j | 0 <= j <= b
      ensures Left(marks, t, j) >= 1
    {
      UsedHasLeft(marks, t, j);
    }
    BusyExact(es, ms, s, v, b);
    if b > 0 {
      BusyExact(es, ms, s, v, b - 1);
      MoveCounted(es[b - 1], ms[b - 1], s, v);
      if IsTick(ms[b - 1]) {
        TickIsNoUse(es[b - 1], ms[b - 1], v);
      }
    }
  }

  lemma TickIsNoUse(e: Endpoint, m: Move, v: nat)
    requires IsTick(m)
    ensures !Refreshes(e, m, v)
  {
  }
}
