/** What a datagram does to the entry of its client, and how long a client that
    sends or is answered keeps its session. */
module UdpActivity {
  import opened Bytes
  import opened RelayData
  import opened RelayQueue
  import opened Endpoints
  import opened EndpointInv
  import opened IdleCounter
  import opened Activity
  import opened SessionEnd
  import EndMoves
  import U = UdpTables

  // ------------------------------------------------------------- one datagram

  predicate Known(u: U.Udp, src: U.Client) {
    src in u.srcs && u.srcs[src].session != 0
  }

  function LastInbox(u: U.Udp): seq<U.Message>
    requires u.senders != []
  {
    u.senders[|u.senders| - 1].inbox
  }

  /** A datagram of a client: the client's counter is 9, a live session keeps its
      number, a new one gets the next and is announced to the sender, other
      clients are left alone, and the datagram is offered to the connection as
      DATA_UDP of that session. */
  lemma ClientIsHeard(e: Endpoint, src: U.Client, data: seq<byte>)
    requires Endpoints.Enabled(e, AcceptUdp(src, data)) && SslLast(e)
    ensures var u := e.udp;
            var e' := Endpoints.Do(e, AcceptUdp(src, data));
            var s := if Known(u, src) then u.srcs[src].session else u.session + 1;
            && e'.udp.srcs == u.srcs[src := U.Src(s, TIMEOUT)]
            && (Known(u, src) ==> e'.udp == u.(srcs := e'.udp.srcs))
            && (!Known(u, src) ==>
                  && e'.udp.session == s && (s !in u.udpSrcs ==> e'.udp.udpSrcs == u.udpSrcs[s := src])
                  && e'.udp.senders != [] && LastInbox(e'.udp) != []
                  && LastInbox(e'.udp)[|LastInbox(e'.udp)| - 1] == U.AddPeer(s, src))
            && Outgoing(e'.ssls) == Outgoing(e.ssls) + [Frame(s, DataUdp, data)]
  {
    hide Outgoing, AddRequest;
    var u := U.FromClient(e.udp, src);
    AddRequestFlows(e.(udp := u), Frame(U.SessionOf(u, src), DataUdp, data));
    EndMoves.AddRequestMoves(e.(udp := u), Frame(U.SessionOf(u, src), DataUdp, data));
    if Known(e.udp, src) {} else {}
  }

  /** Whom a reply of session s is for. */
  function Receiver(u: U.Udp, s: nat): U.Client {
    if s in u.udpSrcs then u.udpSrcs[s] else U.Anyone
  }

  /** A reply at a transparent end: it is posted to the sender, a new one if the
      sender has stopped, and the receiver's counter is 9; its session and all
      other clients are left alone. */
  lemma ReplyIsHeard(e: Endpoint, f: Frame)
    requires CanHandle(e, f) && f.cmd == DataUdp && e.role == LocalTransparent && e.udp.senders != []
    ensures var u := e.udp;
            var u' := AddResponse(e, f).udp;
            var c := Receiver(u, f.session);
            && u'.srcs == u.srcs[c := U.Src(if c in u.srcs then u.srcs[c].session else 0, TIMEOUT)]
            && u'.udpSrcs == u.udpSrcs[f.session := c] && u'.session == u.session
            && u'.senders != []
            && LastInbox(u') == (if U.Stopped(u) then [] else LastInbox(u)) + [U.Out(f)]
            && (U.Stopped(u) ==> u'.senders[..|u.senders|] == u.senders)
  {
  }

  // -------------------------------------------------------- in any behaviour

  /** Client c has session s, is found by its replies, and nobody else has s. */
  predicate HasSession(u: U.Udp, c: U.Client, s: nat) {
    && c in u.srcs && u.srcs[c].session == s && 0 < s <= u.session
    && s in u.udpSrcs && u.udpSrcs[s] == c
    && forall d | d in u.srcs && d != c :: u.srcs[d].session != s
  }

  /** Client c sends, or is answered. */
  predicate Heard(e: Endpoint, m: Move, c: U.Client) {
    match m
    case Own(AcceptUdp(src, _)) => src == c
    case Handles(f) =>
      f.cmd == DataUdp && e.role == LocalTransparent && e.udp.senders != [] && Receiver(e.udp, f.session) == c
    case _ => false
  }

  function ClientMark(e: Endpoint, m: Move, c: U.Client): Mark {
    if Heard(e, m, c) then Used else if IsTick(m) then Ticked else Neither
  }

  function ClientMarks(es: seq<Endpoint>, ms: seq<Move>, c: U.Client): (marks: seq<Mark>)
    requires |es| == |ms| + 1
    ensures |marks| == |ms| && forall j | 0 <= j < |ms| :: marks[j] == ClientMark(es[j], ms[j], c)
  {
    seq(|ms|, j requires 0 <= j < |ms| => ClientMark(es[j], ms[j], c))
  }

  /** No tick finds the TLS connection idle, which would clear both tables. */
  predicate TlsInUse(e: Endpoint, m: Move) {
    IsTick(m) ==> SslOk(e) && !SslIdle(e)
  }

  /** What a move does to the session and the counter of client c. */
  predicate ClientCounts(u: U.Udp, u': U.Udp, c: U.Client, s: nat, mark: Mark)
    requires c in u.srcs
  {
    match mark
    case Used => HasSession(u', c, s) && u'.srcs[c].timeout == TIMEOUT
    case Ticked =>
      if u.srcs[c].timeout > 1 then HasSession(u', c, s) && u'.srcs[c].timeout == u.srcs[c].timeout - 1
      else c !in u'.srcs && s !in u'.udpSrcs
    case Neither => HasSession(u', c, s) && u'.srcs[c].timeout == u.srcs[c].timeout
  }

  lemma DatagramCounts(u: U.Udp, src: U.Client, c: U.Client, s: nat)
    requires HasSession(u, c, s) && u.senders != []
    ensures ClientCounts(u, U.FromClient(u, src), c, s, if src == c then Used else Neither)
  {
  }

  lemma ReplyCounts(u: U.Udp, f: Frame, c: U.Client, s: nat)
    requires HasSession(u, c, s) && u.senders != []
    ensures ClientCounts(u, U.ToClient(u, f), c, s, if Receiver(u, f.session) == c then Used else Neither)
  {
  }

  lemma ExpireCounts(u: U.Udp, order: seq<U.Client>, c: U.Client, s: nat)
    requires HasSession(u, c, s) && u.senders != [] && forall i | 0 <= i < |order| :: order[i] in u.srcs
    ensures ClientCounts(u, U.Expire(u, order), c, s, Ticked)
  {
    if u.srcs[c].timeout <= 1 {
      assert U.Expires(u.srcs, c) && s in U.ExpiredSessions(u.srcs);
    } else {
      assert s !in U.ExpiredSessions(u.srcs);
    }
  }

  lemma OwnHeard(e: Endpoint, st: Endpoints.Step, c: U.Client, s: nat)
    requires Endpoints.Enabled(e, st) && HasSession(e.udp, c, s) && TlsInUse(e, Own(st))
    ensures ClientCounts(e.udp, Endpoints.Do(e, st).udp, c, s, ClientMark(e, Own(st), c))
  {
    hide HasSession;
    match st
    case Request(i) => EndMoves.AddRequestMoves(TakeRequest(e, i), e.objs[i].outbox[0]);
    case AcceptTcp => NextCounts(e.udp, c, s);
    case AcceptUdp(src, data) =>
      var u := U.FromClient(e.udp, src);
      EndMoves.AddRequestMoves(e.(udp := u), Frame(U.SessionOf(u, src), DataUdp, data));
      DatagramCounts(e.udp, src, c, s);
    case TimerTick(order) => ExpireCounts(e.udp, order, c, s);
    case SenderStep(w, act) => SenderCounts(e.udp, w, act, c, s);
    case _ =>
  }

  lemma NextCounts(u: U.Udp, c: U.Client, s: nat)
    requires HasSession(u, c, s)
    ensures ClientCounts(u, U.NextTcp(u), c, s, Neither)
  {
  }

  lemma SenderCounts(u: U.Udp, w: nat, act: U.SenderStep, c: U.Client, s: nat)
    requires HasSession(u, c, s) && w < |u.senders| && U.SenderCan(u.senders[w], act)
    ensures ClientCounts(u, SenderMoves(u, w, act), c, s, Neither)
  {
  }

  lemma HandlesHeard(e: Endpoint, f: Frame, c: U.Client, s: nat)
    requires CanHandle(e, f) && HasSession(e.udp, c, s)
    ensures ClientCounts(e.udp, AddResponse(e, f).udp, c, s, ClientMark(e, Handles(f), c))
  {
    hide HasSession;
    var h := e.(handled := e.handled + [f]);
    match f.cmd
    case DataTcp =>
      if FindsStopped(e, f) {
        EndMoves.AddRequestMoves(h.(relays := h.relays - {f.session}), StopFrame(f.session));
      } else {
      }
    case DataUdp =>
      if e.role == LocalTransparent && e.udp.senders != [] {
        ReplyCounts(e.udp, f, c, s);
      } else {
        RemoteUdpSame(h, f);
      }
    case StartTcp => if DestOf(f.data).Ok? {} else {}
    case _ =>
  }

  lemma RemoteUdpSame(e: Endpoint, f: Frame)
    requires TableOk(e) && (e.role != LocalTransparent || e.udp.senders == [])
    ensures OnDataUdp(e, f).udp == e.udp
  {
    match e.role
    case RemoteServer =>
      var v := Lookup(e, f.session);
      if v.None? || e.objs[v.value].relay.state == Stop {} else {}
    case _ =>
  }

  lemma MoveHeard(e: Endpoint, m: Move, c: U.Client, s: nat)
    requires CanMove(e, m) && HasSession(e.udp, c, s) && TlsInUse(e, m)
    ensures ClientCounts(e.udp, Moved(e, m).udp, c, s, ClientMark(e, m, c))
  {
    match m
    case Own(st) => OwnHeard(e, st, c, s);
    case Handles(f) => HandlesHeard(e, f, c, s);
    case _ =>
  }

  /** The counter of a client, exactly, in every behaviour in which the TLS
      connection is not idle: as long as ticks are left, the client has its session,
      replies find it, and the counter says how many; the tick that uses up the
      last one takes it out of both tables. */
  lemma {:induction false} ClientExact(es: seq<Endpoint>, ms: seq<Move>, c: U.Client, s: nat, b: nat)
    requires EndBehaviour(es, ms) && b <= |ms| && HasSession(es[0].udp, c, s) && es[0].udp.srcs[c].timeout >= 1
    requires forall j {:trigger ms[j]} | 0 <= j < b :: TlsInUse(es[j], ms[j])
    requires forall j | 0 <= j < b :: Left(ClientMarks(es, ms, c), es[0].udp.srcs[c].timeout, j) >= 1
    ensures var l := Left(ClientMarks(es, ms, c), es[0].udp.srcs[c].timeout, b);
            if l >= 1 then HasSession(es[b].udp, c, s) && es[b].udp.srcs[c].timeout == l
            else c !in es[b].udp.srcs && s !in es[b].udp.udpSrcs
    decreases b
  {
    hide CanMove, Moved, TlsInUse, Heard;
    if b > 0 {
      ClientExact(es, ms, c, s, b - 1);
      assert Left(ClientMarks(es, ms, c), es[0].udp.srcs[c].timeout, b - 1) >= 1;
      MoveHeard(es[b - 1], ms[b - 1], c, s);
    }
  }

  /** A client that sends or is answered at least once in every stretch of eight
      ticks keeps its session. */
  lemma HeardKeepsSession(es: seq<Endpoint>, ms: seq<Move>, c: U.Client, s: nat, b: nat)
    requires EndBehaviour(es, ms) && b <= |ms| && HasSession(es[0].udp, c, s) && 1 <= es[0].udp.srcs[c].timeout <= TIMEOUT
    requires forall j {:trigger ms[j]} | 0 <= j < b :: TlsInUse(es[j], ms[j])
    requires forall j | 0 <= j <= b :: RecentlyUsed(ClientMarks(es, ms, c), es[0].udp.srcs[c].timeout, j)
    ensures HasSession(es[b].udp, c, s)
  {
    hide CanMove, Moved, TlsInUse, Heard, RecentlyUsed, Left;
    var t := es[0].udp.srcs[c].timeout;
    forall j | 0 <= j <= b
      ensures Left(ClientMarks(es, ms, c), t, j) >= 1
    {
      UsedHasLeft(ClientMarks(es, ms, c), t, j);
    }
    ClientExact(es, ms, c, s, b);
  }
}
