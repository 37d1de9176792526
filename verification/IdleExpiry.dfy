/** How long an idle relay stays in _relays. */
module IdleExpiry {
  import opened Bytes
  import opened RelayData
  import opened RelayQueue
  import opened Endpoints
  import U = UdpTables

  lemma TickTable(e: Endpoint)
    requires TableOk(e)
    ensures TableOk(TickRelays(e))
  {
    var e' := TickRelays(e);
    forall i | 0 <= i < |e.objs|
      ensures e'.objs[i].session == e.objs[i].session
    {
    }
  }

  /** k turns of the timer's loop over _relays with no reset in between. */
  function TickedBy(e: Endpoint, k: nat): Endpoint
    requires TableOk(e)
    decreases k
  {
    if k == 0 then e else TickTable(e); TickedBy(TickRelays(e), k - 1)
  }

  /** What one tick does to a session's entry and its relay. */
  lemma OneTick(e: Endpoint, s: nat)
    requires TableOk(e) && s in e.relays && e.relays[s].Some?
    ensures var v := e.relays[s].value;
            var r := e.objs[v].relay;
            var e' := TickRelays(e);
            && e'.objs[v].relay == TimeoutDown(r)
            && (s in e'.relays <==> r.timeout > 1) && (s in e'.relays ==> e'.relays[s] == e.relays[s])
  {
    var v := e.relays[s].value;
    assert InTable(e, v);
    var r := e.objs[v].relay;
    if r.timeout == 0 {} else if r.timeout == 1 {} else {}
  }

  /** Once out of the table, ticks neither bring the entry back nor touch the
      relay. */
  lemma {:induction false} GoneStaysGone(e: Endpoint, s: nat, v: nat, k: nat)
    requires TableOk(e) && s !in e.relays && v < |e.objs| && e.objs[v].session == s
    ensures s !in TickedBy(e, k).relays
    ensures v < |TickedBy(e, k).objs| && TickedBy(e, k).objs[v].relay == e.objs[v].relay
    decreases k
  {
    if k > 0 {
      TickTable(e);
      GoneStaysGone(TickRelays(e), s, v, k - 1);
    }
  }

  /** A relay whose counter stands at t is in the table for t - 1 more ticks and
      leaves on the t-th, with stop_relay posted to it; a null entry leaves on
      the first. Every reset puts t back to 9. */
  lemma {:induction false} RelayIdleExact(e: Endpoint, s: nat, k: nat)
    requires TableOk(e) && s in e.relays && (e.relays[s].Some? ==> e.objs[e.relays[s].value].relay.timeout >= 1)
    ensures s in TickedBy(e, k).relays <==>
              if e.relays[s].Some? then k < e.objs[e.relays[s].value].relay.timeout else k == 0
    ensures e.relays[s].Some? ==>
              var v := e.relays[s].value;
              var r := e.objs[v].relay;
              && v < |TickedBy(e, k).objs|
              && TickedBy(e, k).objs[v].relay ==
                 if k < r.timeout then r.(timeout := r.timeout - k) else Post(r.(timeout := 0), Halt)
    decreases k
  {
    hide InTable, Survives;
    if k > 0 {
      TickTable(e);
      if e.relays[s].None? {
        NullLeaves(e, s, k);
      } else {
        OneTick(e, s);
        var v := e.relays[s].value;
        if e.objs[v].relay.timeout > 1 {
          RelayIdleExact(TickRelays(e), s, k - 1);
        } else {
          GoneStaysGone(TickRelays(e), s, v, k - 1);
        }
      }
    }
  }

  lemma NullLeaves(e: Endpoint, s: nat, k: nat)
    requires TableOk(e) && s in e.relays && e.relays[s].None? && k > 0
    ensures s !in TickedBy(e, k).relays
  {
    TickTable(e);
    NullStaysGone(TickRelays(e), s, k - 1);
  }

  lemma {:induction false} NullStaysGone(e: Endpoint, s: nat, k: nat)
    requires TableOk(e) && s !in e.relays
    ensures s !in TickedBy(e, k).relays
    decreases k
  {
    if k > 0 {
      TickTable(e);
      NullStaysGone(TickRelays(e), s, k - 1);
    }
  }

  // ------------------------------------------------- with other moves between

  function Ticks(ms: seq<Move>): nat {
    if ms == [] then 0
    else Ticks(ms[..|ms| - 1]) + if ms[|ms| - 1].Own? && ms[|ms| - 1].st.TimerTick? then 1 else 0
  }

  /** The end gives up: a remote one whose connection is gone. */
  predicate GivesUp(e: Endpoint)
    requires SslOk(e)
  {
    e.role == RemoteServer && SslDown(e)
  }

  /** Moves that neither reset the idle counter of relay v nor touch its session's
      entry: v reads nothing and starts no write, no frame of the session is
      handled, the number is not given out again, the end does not give up. */
  predicate LeavesAlone(e: Endpoint, m: Move, s: nat, v: nat) {
    match m
    case Own(ReadSome(i, _)) => i != v
    case Own(ObjStep(i, q)) => i != v || (q != RunSpawned && !q.WriteDone?)
    case Own(Request(_)) => SslOk(e) && !GivesUp(e)
    case Own(AcceptTcp) => e.udp.session != s
    case Own(TimerTick(_)) => SslOk(e) && !(SslIdle(e) && e.role == RemoteServer)
    case Own(_) => true
    case Handles(f) => f.session != s && SslOk(e) && !GivesUp(e)
    case _ => true
  }

  /** How the session's entry and its relay look after such a move. */
  predicate Alone(e: Endpoint, e': Endpoint, s: nat, v: nat) {
    && (s in e.relays <==> s in e'.relays) && (s in e.relays ==> e'.relays[s] == e.relays[s])
    && v < |e.objs| <= |e'.objs| && e'.objs[v].session == e.objs[v].session
    && e'.objs[v].relay.timeout == e.objs[v].relay.timeout
    && (e.objs[v].relay.stopCalled ==> e'.objs[v].relay.stopCalled)
  }

  lemma RequestAlone(e: Endpoint, f: Frame, s: nat, v: nat)
    requires SslOk(e) && !GivesUp(e) && v < |e.objs|
    ensures Alone(e, AddRequest(e, f), s, v)
  {
  }

  lemma ObjStepAlone(e: Endpoint, i: nat, q: RelayQueue.Step, s: nat, v: nat)
    requires i < |e.objs| && CanStep(e, e.objs[i], q) && v < |e.objs| && (i == v ==> q != RunSpawned && !q.WriteDone?)
    ensures Alone(e, SetObj(e, i, ObjAfter(e.objs[i], q, Socks(e, e.objs[i]))), s, v)
  {
    var r := e.objs[i].relay;
    StepFrame(r, q);
    if i == v {
      match q
      case Receive =>
        match r.inbox[0] {
          case Halt =>
          case Send(b) => if r.state == Stop {} else {}
        }
      case _ =>
    }
  }

  lemma OwnAlone(e: Endpoint, st: Endpoints.Step, s: nat, v: nat)
    requires Endpoints.Enabled(e, st) && v < |e.objs| && LeavesAlone(e, Own(st), s, v) && !st.TimerTick?
    ensures Alone(e, Endpoints.Do(e, st), s, v)
  {
    match st
    case ObjStep(i, q) => ObjStepAlone(e, i, q, s, v);
    case Request(i) => RequestAlone(TakeRequest(e, i), e.objs[i].outbox[0], s, v);
    case AcceptUdp(src, data) =>
      var u := U.FromClient(e.udp, src);
      RequestAlone(e.(udp := u), Frame(U.SessionOf(u, src), DataUdp, data), s, v);
    case _ =>
  }

  lemma HandlesAlone(e: Endpoint, f: Frame, s: nat, v: nat)
    requires CanHandle(e, f) && v < |e.objs| && f.session != s && !GivesUp(e)
    requires e.objs[v].session == s
    ensures Alone(e, AddResponse(e, f), s, v)
  {
    var h := e.(handled := e.handled + [f]);
    match f.cmd
    case DataTcp =>
      if f.session in e.relays && e.relays[f.session].Some? {
        if e.objs[e.relays[f.session].value].relay.state == Stop {
          RequestAlone(h.(relays := h.relays - {f.session}), StopFrame(f.session), s, v);
        } else {
        }
      }
    case DataUdp => UdpAlone(h, f, s, v);
    case StartTcp => StartAlone(h, f, s, v);
    case StopTcp =>
    case StopUdp =>
    case Unknown(_) =>
  }

  lemma UdpAlone(e: Endpoint, f: Frame, s: nat, v: nat)
    requires TableOk(e) && v < |e.objs| && f.session != s && e.objs[v].session == s
    ensures Alone(e, OnDataUdp(e, f), s, v)
  {
    match e.role
    case LocalServer =>
    case LocalTransparent =>
    case RemoteServer =>
      var w := Lookup(e, f.session);
      if w.None? || e.objs[w.value].relay.state == Stop {
      } else {
      }
  }

  lemma StartAlone(e: Endpoint, f: Frame, s: nat, v: nat)
    requires TableOk(e) && |f.data| <= READ_BUFFER_SIZE && v < |e.objs| && f.session != s && e.objs[v].session == s
    ensures Alone(e, StartRemoteTcp(e, f), s, v)
  {
    var w := Lookup(e, f.session);
    if w.Some? {
      assert w.value != v;
    }
    match DestOf(f.data)
    case Ok(_) =>
    case Err(_) =>
  }

  /** A turn of the timer that does not give up counts v down if it is in the
      table. */
  lemma TurnCounts(e: Endpoint, order: seq<U.Client>, s: nat, v: nat)
    requires CanTick(e, order) && v < |e.objs| && !(SslIdle(e) && e.role == RemoteServer) && e.objs[v].session == s
    ensures var e' := TimerTurn(e, order);
            && v < |e'.objs| && e'.objs[v].session == s
            && (s !in e.relays ==> s !in e'.relays && e'.objs[v].relay == e.objs[v].relay)
            && (s in e.relays && e.relays[s] == Some(v) ==>
                && e'.objs[v].relay == TimeoutDown(e.objs[v].relay)
                && (s in e'.relays <==> e.objs[v].relay.timeout > 1) && (s in e'.relays ==> e'.relays[s] == Some(v)))
  {
    var u := if SslIdle(e) then U.Clear(e.udp) else e.udp;
    assert u.srcs == TickSources(e);
    var e2 := TickSsl(e).(udp := U.Expire(u, order));
    assert TimerBody(e, order) == TickRelays(e2);
    if s in e.relays && e.relays[s] == Some(v) {
      OneTick(e2, s);
    }
  }

  /** After i moves of which c were ticks. */
  predicate Counted(e: Endpoint, s: nat, v: nat, t: nat, c: nat) {
    && v < |e.objs| && e.objs[v].session == s
    && (if c < t then s in e.relays && e.relays[s] == Some(v) && e.objs[v].relay.timeout == t - c
        else s !in e.relays && e.objs[v].relay.stopCalled)
  }

  lemma MoveCounts(e: Endpoint, m: Move, s: nat, v: nat, t: nat, c: nat)
    requires CanMove(e, m) && LeavesAlone(e, m, s, v) && Counted(e, s, v, t, c)
    ensures Counted(Moved(e, m), s, v, t, if m.Own? && m.st.TimerTick? then c + 1 else c)
  {
    match m
    case Own(st) =>
      if st.TimerTick? {
        TurnCounts(e, st.order, s, v);
        if e.objs[v].relay.timeout == 1 {} else {}
      } else {
        OwnAlone(e, st, s, v);
      }
    case Handles(f) => HandlesAlone(e, f, s, v);
    case _ =>
  }

  /** Idle expiry in any behaviour of an end: a relay whose counter stands at t
      and that is left alone is in the table until the t-th tick, whatever else
      happens between the ticks, and is gone from then on, told to stop. */
  lemma {:induction false} IdleInBehaviour(es: seq<Endpoint>, ms: seq<Move>, s: nat, v: nat, t: nat, i: nat)
    requires EndBehaviour(es, ms) && i <= |ms|
    requires s in es[0].relays && es[0].relays[s] == Some(v) && v < |es[0].objs| && es[0].objs[v].session == s
    requires t == es[0].objs[v].relay.timeout && t >= 1
    requires forall j {:trigger ms[j]} | 0 <= j < i :: LeavesAlone(es[j], ms[j], s, v)
    ensures Counted(es[i], s, v, t, Ticks(ms[..i]))
    decreases i
  {
    hide CanMove, Moved, LeavesAlone;
    if i > 0 {
      IdleInBehaviour(es, ms, s, v, t, i - 1);
      assert ms[..i][..i - 1] == ms[..i - 1];
      MoveCounts(es[i - 1], ms[i - 1], s, v, t, Ticks(ms[..i - 1]));
    }
  }
}
