/** What the timer does when the TLS connection has been idle: a remote end is
    over, a local end forgets its UDP clients. */
module TlsIdle {
  import opened Bytes
  import opened RelayData
  import opened RelayQueue
  import opened Endpoints
  import opened IdleCounter
  import opened Activity
  import opened Sessions
  import opened EndProjections
  import opened UdpCoherence
  import EndMoves
  import U = UdpTables

  // ----------------------------------------------------------------- one tick

  /** The last tick of a connection tells it to stop. */
  predicate UsedUp(r: Relay, r': Relay) {
    r'.timeout == 0 && r'.inbox == (if r.timeout == 1 then r.inbox + [Halt] else r.inbox)
  }

  /** The tick that finds the connection of a remote end used up: every relay in
      the table is told to stop, the table is empty, the end is stopped and its
      timer does not wait again. */
  lemma IdleTickAtRemote(e: Endpoint, order: seq<U.Client>)
    requires Endpoints.Enabled(e, TimerTick(order)) && e.role == RemoteServer
    requires e.ssl.Some? && e.ssls[e.ssl.value].timeout <= 1
    ensures var e' := Endpoints.Do(e, TimerTick(order));
            && e'.relays == map[] && !e'.running && !e'.timing && |e'.objs| == |e.objs|
            && (forall s, v | s in e.relays && e.relays[s] == Some(v) ::
                  e'.objs[v].relay.stopCalled && e'.objs[v].relay.inbox == e.objs[v].relay.inbox + [Halt])
            && (forall i | 0 <= i < |e.objs| && !InTable(e, i) :: e'.objs[i] == e.objs[i])
            && UsedUp(e.ssls[e.ssl.value], e'.ssls[e.ssl.value])
  {
    var e' := Endpoints.Do(e, TimerTick(order));
    assert SslIdle(e);
    forall s, v | s in e.relays && e.relays[s] == Some(v)
      ensures e'.objs[v].relay.stopCalled && e'.objs[v].relay.inbox == e.objs[v].relay.inbox + [Halt]
    {
      assert InTable(e, v);
    }
  }

  lemma FirstExpires(srcs: map<U.Client, U.Src>, order: seq<U.Client>)
    requires U.ExpiryOrder(srcs, order) && order != []
    ensures order[0] in srcs
  {
    assert U.Expires(srcs, order[0]);
  }

  lemma NoneExpire(srcs: map<U.Client, U.Src>, order: seq<U.Client>)
    requires U.ExpiryOrder(srcs, order) && srcs == map[]
    ensures order == []
  {
    if order != [] {
      FirstExpires(srcs, order);
      assert false;
    }
  }

  lemma Cleared(u: U.Udp)
    requires u.senders != []
    ensures var v := U.Expire(U.Clear(u), []);
            v.srcs == map[] && v.udpSrcs == map[] && v.senders != [] && CurrentPeers(v) == map[]
  {
    var w := u.senders[|u.senders| - 1];
    PendingPost(w.peers, w.inbox, U.DelPeer(0));
    assert w.inbox + [U.DelPeer(0)] + [] == w.inbox + [U.DelPeer(0)];
  }

  /** At a local end all clients are gone, and so are the sender's peers once it
      has handled what was posted to it; the end goes on. */
  lemma IdleTickAtLocal(e: Endpoint, order: seq<U.Client>)
    requires Endpoints.Enabled(e, TimerTick(order)) && e.role != RemoteServer
    requires e.ssl.Some? && e.ssls[e.ssl.value].timeout <= 1
    ensures var e' := Endpoints.Do(e, TimerTick(order));
            && e'.udp.srcs == map[] && e'.udp.udpSrcs == map[]
            && e'.udp.senders != [] && CurrentPeers(e'.udp) == map[]
            && e'.running == e.running && e'.timing == e.running
            && UsedUp(e.ssls[e.ssl.value], e'.ssls[e.ssl.value])
  {
    hide U.Expire, U.Clear, TickObjs, Survives, CurrentPeers;
    assert SslIdle(e);
    NoneExpire(TickSources(e), order);
    Cleared(e.udp);
  }

  /** Any other tick leaves the end running; its clients and the connection each
      lose one tick. */
  lemma OtherTick(e: Endpoint, order: seq<U.Client>)
    requires Endpoints.Enabled(e, TimerTick(order))
    requires e.ssl.Some? ==> e.ssls[e.ssl.value].timeout > 1
    ensures var e' := Endpoints.Do(e, TimerTick(order));
            && e'.running == e.running && e'.timing == e.running
            && (forall c :: c in e'.udp.srcs <==> c in e.udp.srcs && e.udp.srcs[c].timeout > 1)
            && (forall c | c in e'.udp.srcs :: e'.udp.srcs[c] == U.Src(e.udp.srcs[c].session, e.udp.srcs[c].timeout - 1))
            && (e.ssl.Some? ==>
                  var r := e.ssls[e.ssl.value];
                  e'.ssls == e.ssls[e.ssl.value := r.(timeout := r.timeout - 1)])
  {
    assert !SslIdle(e);
  }

  // -------------------------------------------------------- in any behaviour

  /** Connection k brings a frame, or starts to write. */
  predicate Carries(e: Endpoint, m: Move, k: nat) {
    match m
    case Hears(j) => j == k
    case Own(SslStep(j, q)) => j == k && k < |e.ssls| && BeginsWrite(e.ssls[k], q)
    case _ => false
  }

  function ConnMark(e: Endpoint, m: Move, k: nat): Mark {
    if Carries(e, m, k) then Used else if IsTick(m) then Ticked else Neither
  }

  function ConnMarks(es: seq<Endpoint>, ms: seq<Move>, k: nat): (marks: seq<Mark>)
    requires |es| == |ms| + 1
    ensures |marks| == |ms| && forall j | 0 <= j < |ms| :: marks[j] == ConnMark(es[j], ms[j], k)
  {
    seq(|ms|, j requires 0 <= j < |ms| => ConnMark(es[j], ms[j], k))
  }

  /** A remote end whose connection is k. */
  predicate Serves(e: Endpoint, k: nat) {
    e.role == RemoteServer && e.ssl == Some(k) && k < |e.ssls|
  }

  /** The end has stopped and its timer has returned. */
  predicate IsOver(e: Endpoint) {
    !e.running && !e.timing
  }

  lemma RequestServes(e: Endpoint, f: Frame, k: nat)
    requires Serves(e, k)
    ensures SslOk(e) && Serves(AddRequest(e, f), k)
    ensures AddRequest(e, f).ssls[k].timeout == e.ssls[k].timeout
    ensures AddRequest(e, f).timing == e.timing && (!e.running ==> !AddRequest(e, f).running)
  {
  }

  /** What a move does to the connection's counter and to the end. */
  predicate ConnCounts(e: Endpoint, e': Endpoint, k: nat, mark: Mark)
    requires k < |e.ssls|
  {
    && Serves(e', k) && (!e.running ==> !e'.running) && (!e.timing ==> !e'.timing)
    && match mark
       case Used => e'.ssls[k].timeout == TIMEOUT
       case Ticked =>
         && e'.ssls[k].timeout == (if e.ssls[k].timeout > 0 then e.ssls[k].timeout - 1 else 0)
         && (e.ssls[k].timeout <= 1 ==> IsOver(e') && e'.relays == map[])
       case Neither => e'.ssls[k].timeout == e.ssls[k].timeout
  }

  lemma TickCountsConn(e: Endpoint, order: seq<U.Client>, k: nat)
    requires CanTick(e, order) && Serves(e, k)
    ensures ConnCounts(e, TimerTurn(e, order), k, Ticked)
  {
    if e.ssls[k].timeout <= 1 {
      IdleTickAtRemote(e, order);
      if e.ssls[k].timeout == 1 {} else {}
    } else {
      OtherTick(e, order);
    }
  }

  lemma OwnCountsConn(e: Endpoint, st: Endpoints.Step, k: nat)
    requires Endpoints.Enabled(e, st) && Serves(e, k)
    ensures ConnCounts(e, Endpoints.Do(e, st), k, ConnMark(e, Own(st), k))
  {
    hide BeginsWrite, TimerTurn;
    match st
    case Request(i) => RequestServes(TakeRequest(e, i), e.objs[i].outbox[0], k);
    case SslStep(j, q) =>
      WritesReset(e.ssls[j], q);
      if j == k {} else {}
    case TimerTick(order) => TickCountsConn(e, order, k);
    case _ =>
  }

  lemma HandlesCountsConn(e: Endpoint, f: Frame, k: nat)
    requires CanHandle(e, f) && Serves(e, k)
    ensures ConnCounts(e, AddResponse(e, f), k, Neither)
  {
    hide AddRequest;
    var h := e.(handled := e.handled + [f]);
    match f.cmd
    case DataTcp =>
      if f.session in e.relays && e.relays[f.session].Some? && e.objs[e.relays[f.session].value].relay.state == Stop {
        RequestServes(h.(relays := h.relays - {f.session}), StopFrame(f.session), k);
      } else {
      }
    case StartTcp => if DestOf(f.data).Ok? {} else {}
    case _ =>
  }

  lemma MoveCountsConn(e: Endpoint, m: Move, k: nat)
    requires CanMove(e, m) && Serves(e, k)
    ensures ConnCounts(e, Moved(e, m), k, ConnMark(e, m, k))
  {
    match m
    case Own(st) => OwnCountsConn(e, st, k);
    case Handles(f) => HandlesCountsConn(e, f, k);
    case Hears(j) => if j == k {} else {}
    case Breaks(j) => if j == k {} else {}
    case Waits =>
  }

  /** The connection's counter, exactly: as long as ticks are left it says how
      many, and the tick that uses up the last one ends the remote end, with an
      empty table. */
  lemma {:induction false} ConnectionExact(es: seq<Endpoint>, ms: seq<Move>, k: nat, b: nat)
    requires EndBehaviour(es, ms) && b <= |ms| && Serves(es[0], k) && es[0].ssls[k].timeout >= 1
    requires forall j | 0 <= j < b :: Left(ConnMarks(es, ms, k), es[0].ssls[k].timeout, j) >= 1
    ensures var l := Left(ConnMarks(es, ms, k), es[0].ssls[k].timeout, b);
            && Serves(es[b], k) && es[b].ssls[k].timeout == l
            && (l == 0 ==> IsOver(es[b]) && es[b].relays == map[])
    decreases b
  {
    hide CanMove, Moved, Carries, IsOver;
    if b > 0 {
      ConnectionExact(es, ms, k, b - 1);
      assert Left(ConnMarks(es, ms, k), es[0].ssls[k].timeout, b - 1) >= 1;
      MoveCountsConn(es[b - 1], ms[b - 1], k);
    }
  }

  /** Over stays over. */
  lemma {:induction false} StaysOver(es: seq<Endpoint>, ms: seq<Move>, k: nat, a: nat, b: nat)
    requires EndBehaviour(es, ms) && a <= b <= |ms| && Serves(es[a], k) && IsOver(es[a])
    ensures Serves(es[b], k) && IsOver(es[b])
    decreases b - a
  {
    hide CanMove, Moved, ConnMark;
    if a < b {
      MoveCountsConn(es[a], ms[a], k);
      StaysOver(es, ms, k, a + 1, b);
    }
  }

  /** The first moment at which a counter that is not used has no tick left. */
  lemma {:induction false} FirstUsedUp(marks: seq<Mark>, t: int, b: nat) returns (a: nat)
    requires b <= |marks| && t >= 1 && TicksIn(marks, 0, b) >= t && forall j | 0 <= j < b :: marks[j] != Used
    ensures a <= b && Left(marks, t, a) == 0 && forall j | 0 <= j < a :: Left(marks, t, j) >= 1
    ensures TicksIn(marks, 0, a) == t
    decreases b
  {
    if TicksIn(marks, 0, b - 1) >= t {
      a := FirstUsedUp(marks, t, b - 1);
    } else {
      a := b;
      forall j | 0 <= j < b
        ensures Left(marks, t, j) >= 1
      {
        UnusedLeft(marks, t, j);
        TicksFewer(marks, j, b - 1);
      }
      UnusedLeft(marks, t, b);
    }
  }

  lemma {:induction false} TicksFewer(marks: seq<Mark>, a: nat, b: nat)
    requires a <= b <= |marks|
    ensures TicksIn(marks, 0, a) <= TicksIn(marks, 0, b)
    decreases b
  {
    if a < b {
      TicksFewer(marks, a, b - 1);
    }
  }

  /** A remote end whose connection is silent for as many ticks as its counter
      stood at is over, and its table was empty at the last of them. */
  lemma SilenceEnds(es: seq<Endpoint>, ms: seq<Move>, k: nat, b: nat) returns (a: nat)
    requires EndBehaviour(es, ms) && b <= |ms| && Serves(es[0], k) && es[0].ssls[k].timeout >= 1
    requires forall j | 0 <= j < b :: ConnMarks(es, ms, k)[j] != Used
    requires TicksIn(ConnMarks(es, ms, k), 0, b) >= es[0].ssls[k].timeout
    ensures a <= b && TicksIn(ConnMarks(es, ms, k), 0, a) == es[0].ssls[k].timeout
    ensures es[a].relays == map[] && IsOver(es[b])
  {
    hide CanMove, Moved, ConnMark, IsOver, TicksIn, Left;
    a := FirstUsedUp(ConnMarks(es, ms, k), es[0].ssls[k].timeout, b);
    ConnectionExact(es, ms, k, a);
    StaysOver(es, ms, k, a, b);
  }

  /** The ticks of the remote end behind connection c. */
  function TicksAt(sts: seq<Sessions.Step>, c: nat): nat {
    if sts == [] then 0
    else
      var st := sts[|sts| - 1];
      TicksAt(sts[..|sts| - 1], c) + if IsTickAt(st, c) then 1 else 0
  }

  lemma RemoteTick(w: World, st: Sessions.Step, c: nat)
    requires Sessions.Enabled(w, st) && c < |w.conns|
    ensures IsTick(RemoteMove(w, st, c)) <==> IsTickAt(st, c)
  {
  }

  lemma TickIsNoFrame(e: Endpoint, m: Move, k: nat)
    requires IsTick(m)
    ensures ConnMark(e, m, k) == Ticked
  {
  }

  predicate IsTickAt(st: Sessions.Step, c: nat) {
    st.AtRemote? && st.c == c && st.st.TimerTick?
  }

  lemma SameTick(ws: seq<World>, sts: seq<Sessions.Step>, c: nat, n: nat, j: nat)
    requires HasConn(ws, sts, c, n) && n + j < |sts|
    ensures ConnMarks(RemoteStates(ws, sts, c, n), RemoteMovesOf(ws, sts, c, n), 0)[j].Ticked? <==> IsTickAt(sts[n + j], c)
  {
    hide RemoteMove, ConnMark, Carries, IsTick, Sessions.Enabled;
    RemoteTick(ws[n + j], sts[n + j], c);
    assert RemoteMovesOf(ws, sts, c, n)[n + j - n] == RemoteMove(ws[n + j], sts[n + j], c);
    MarkOfTick(RemoteStates(ws, sts, c, n)[j], RemoteMovesOf(ws, sts, c, n)[j]);
  }

  /** The ticks of the system's steps are the ticks of the end's moves. */
  lemma {:induction false} SameTicks(ws: seq<World>, sts: seq<Sessions.Step>, c: nat, n: nat, b: nat)
    requires HasConn(ws, sts, c, n) && n <= b <= |sts|
    ensures TicksIn(ConnMarks(RemoteStates(ws, sts, c, n), RemoteMovesOf(ws, sts, c, n), 0), 0, b - n) == TicksAt(sts[n..b], c)
    decreases b
  {
    hide HasConn, RemoteMove, ConnMark, IsTickAt;
    if n < b {
      SameTicks(ws, sts, c, n, b - 1);
      assert sts[n..b][..b - 1 - n] == sts[n..b - 1];
      SameTick(ws, sts, c, n, b - 1 - n);
    }
  }

  lemma MarkOfTick(e: Endpoint, m: Move)
    ensures ConnMark(e, m, 0) == Ticked <==> IsTick(m)
  {
  }

  /** No frame comes in over connection c and the remote end starts no write to
      it. */
  ghost predicate Silent(w: World, st: Sessions.Step, c: nat) {
    Sessions.Enabled(w, st) && c < |w.conns| && !Carries(w.conns[c].remote, RemoteMove(w, st, c), 0)
  }

  lemma SilentIsNoUse(ws: seq<World>, sts: seq<Sessions.Step>, c: nat, n: nat, j: nat)
    requires HasConn(ws, sts, c, n) && n + j < |sts| && Silent(ws[n + j], sts[n + j], c)
    ensures ConnMarks(RemoteStates(ws, sts, c, n), RemoteMovesOf(ws, sts, c, n), 0)[j] != Used
  {
    hide RemoteMove, Carries, Sessions.Enabled;
    assert RemoteStates(ws, sts, c, n)[n + j - n] == ws[n + j].conns[c].remote;
    assert RemoteMovesOf(ws, sts, c, n)[n + j - n] == RemoteMove(ws[n + j], sts[n + j], c);
  }

  /** In every behaviour of the system: once the remote end behind connection c
      has made as many ticks as its counter stood at, with the connection silent,
      it is over; and at the tick that used up the counter its table was empty. */
  lemma IdleConnectionEnds(ws: seq<World>, sts: seq<Sessions.Step>, c: nat, n: nat, b: nat) returns (a: nat)
    requires Behaviour(ws, sts) && n <= b <= |sts| && c < |ws[n].conns|
    requires Serves(ws[n].conns[c].remote, 0) && ws[n].conns[c].remote.ssls[0].timeout >= 1
    requires forall i {:trigger ws[i]} | n <= i < b :: Silent(ws[i], sts[i], c)
    requires TicksAt(sts[n..b], c) >= ws[n].conns[c].remote.ssls[0].timeout
    ensures n <= a <= b && TicksAt(sts[n..a], c) == ws[n].conns[c].remote.ssls[0].timeout
    ensures c < |ws[a].conns| && ws[a].conns[c].remote.relays == map[]
    ensures c < |ws[b].conns| && IsOver(ws[b].conns[c].remote)
  {
    hide Next, EndBehaviour, Silent, IsOver, TicksAt, TicksIn, ConnMarks, Sessions.Enabled;
    ConnIsThere(ws, sts, c, n);
    RemoteBehaviour(ws, sts, c, n);
    var es, ms := RemoteStates(ws, sts, c, n), RemoteMovesOf(ws, sts, c, n);
    assert es[n - n] == ws[n].conns[c].remote && es[b - n] == ws[b].conns[c].remote;
    forall j | 0 <= j < b - n
      ensures ConnMarks(es, ms, 0)[j] != Used
    {
      SilentIsNoUse(ws, sts, c, n, j);
    }
    SameTicks(ws, sts, c, n, b);
    var d := SilenceEnds(es, ms, 0, b - n);
    a := n + d;
    SameTicks(ws, sts, c, n, a);
    assert es[a - n] == ws[a].conns[c].remote;
  }
}
