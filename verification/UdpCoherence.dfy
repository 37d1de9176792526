/** When the two UDP tables and the sender's peers agree, exactly which events
    keep them in agreement, and when an idle client leaves. */
module UdpCoherence {
  import opened Bytes
  import opened RelayData
  import opened UdpTables

  /** The peers once everything posted so far has been handled. */
  function Pending(peers: map<nat, Client>, ms: seq<Message>): map<nat, Client>
    decreases |ms|
  {
    if ms == [] then peers else Pending(Handle(peers, ms[0]), ms[1..])
  }

  function CurrentPeers(u: Udp): map<nat, Client>
    requires u.senders != []
  {
    var w := u.senders[|u.senders| - 1];
    Pending(w.peers, w.inbox)
  }

  /** _srcs and _udp_srcs are inverse to each other, and every live session's
      peer will be its client. */
  ghost predicate Coherent(u: Udp) {
    && u.senders != []
    && (forall c | c in u.srcs ::
          && 0 < u.srcs[c].session <= u.session && u.srcs[c].timeout >= 1
          && u.srcs[c].session in u.udpSrcs && u.udpSrcs[u.srcs[c].session] == c)
    && (forall s | s in u.udpSrcs :: u.udpSrcs[s] in u.srcs && u.srcs[u.udpSrcs[s]].session == s)
    && (forall s | s in u.udpSrcs :: s in CurrentPeers(u) && CurrentPeers(u)[s] == u.udpSrcs[s])
  }

  /** The hypotheses under which an event is harmless: no reply to a session
      that is not live, and no restart of the sender while others are live. */
  predicate Orderly(u: Udp, e: Event)
    requires u.senders != []
  {
    match e
    case ToClientE(f) => f.session in u.udpSrcs && !Stopped(u)
    case FromClientE(src) => src in u.srcs || !Stopped(u) || u.srcs == map[]
    case _ => true
  }

  // -------------------------------------------------------- pending messages

  lemma {:induction false} PendingSplit(peers: map<nat, Client>, a: seq<Message>, b: seq<Message>)
    ensures Pending(peers, a + b) == Pending(Pending(peers, a), b)
    decreases |a|
  {
    if a == [] {
      assert a + b == b;
    } else {
      assert (a + b)[1..] == a[1..] + b;
      PendingSplit(Handle(peers, a[0]), a[1..], b);
    }
  }

  lemma PendingPost(peers: map<nat, Client>, ms: seq<Message>, m: Message)
    ensures Pending(peers, ms + [m]) == Handle(Pending(peers, ms), m)
  {
    PendingSplit(peers, ms, [m]);
    assert [m][1..] == [];
  }

  predicate Submap(p: map<nat, Client>, q: map<nat, Client>) {
    forall s | s in p :: s in q && q[s] == p[s]
  }

  lemma {:induction false} PendingMonotone(p: map<nat, Client>, q: map<nat, Client>, ms: seq<Message>)
    requires Submap(p, q)
    ensures Submap(Pending(p, ms), Pending(q, ms))
    decreases |ms|
  {
    if ms != [] {
      PendingMonotone(Handle(p, ms[0]), Handle(q, ms[0]), ms[1..]);
    }
  }

  /** Deletions of real sessions. */
  lemma {:induction false} PendingDeletes(peers: map<nat, Client>, ms: seq<Message>, s: nat)
    requires forall i | 0 <= i < |ms| :: ms[i].DelPeer? && ms[i].session != 0
    ensures s in Pending(peers, ms) <==> s in peers && DelPeer(s) !in ms
    ensures s in Pending(peers, ms) ==> Pending(peers, ms)[s] == peers[s]
    decreases |ms|
  {
    if ms != [] {
      assert ms == [ms[0]] + ms[1..];
      PendingDeletes(Handle(peers, ms[0]), ms[1..], s);
    }
  }

  lemma CurrentPost(u: Udp, m: Message)
    requires u.senders != []
    ensures CurrentPeers(PostToSender(u, m)) == Handle(CurrentPeers(u), m)
  {
    var w := u.senders[|u.senders| - 1];
    PendingPost(w.peers, w.inbox, m);
  }

  // ------------------------------------------------------------ exactly when

  lemma ToClientExact(u: Udp, f: Frame)
    requires Coherent(u)
    ensures Coherent(ToClient(u, f)) <==> Orderly(u, ToClientE(f))
  {
    var u' := ToClient(u, f);
    CurrentPost(Restart(u), Out(f));
    assert CurrentPeers(u') == CurrentPeers(Restart(u));
    var c := if f.session in u.udpSrcs then u.udpSrcs[f.session] else Anyone;
    assert c in u'.srcs && u'.srcs[c].session == SessionOf(u, c);
    assert f.session in u'.udpSrcs && u'.udpSrcs[f.session] == c;
    if f.session !in u.udpSrcs && Anyone in u.srcs {
      assert u.srcs[Anyone].session in u.udpSrcs;
    }
  }

  lemma FromClientExact(u: Udp, src: Client)
    requires Coherent(u)
    ensures Coherent(FromClient(u, src)) <==> Orderly(u, FromClientE(src))
  {
    if src in u.srcs {
      assert CurrentPeers(FromClient(u, src)) == CurrentPeers(u);
    } else if !Stopped(u) {
      NewClientCoherent(u, src);
    } else {
      NewClientRestart(u, src);
    }
  }

  lemma NewClientCoherent(u: Udp, src: Client)
    requires Coherent(u) && src !in u.srcs && !Stopped(u)
    ensures Coherent(FromClient(u, src))
  {
    var s := u.session + 1;
    var u' := FromClient(u, src);
    assert s !in u.udpSrcs;
    CurrentPost(u.(session := s), AddPeer(s, src));
    assert CurrentPeers(u.(session := s)) == CurrentPeers(u);
    assert CurrentPeers(u') == CurrentPeers(u)[s := src];
  }

  /** A restarted sender knows the new client only. */
  lemma NewClientRestart(u: Udp, src: Client)
    requires Coherent(u) && src !in u.srcs && Stopped(u)
    ensures Coherent(FromClient(u, src)) <==> u.srcs == map[]
  {
    var s := u.session + 1;
    var u' := FromClient(u, src);
    var r := Restart(u.(session := s));
    CurrentPost(r, AddPeer(s, src));
    assert CurrentPeers(r) == map[];
    assert CurrentPeers(u') == map[s := src];
    assert s !in u.udpSrcs;
    if u.srcs == map[] {
      assert u.udpSrcs == map[] by {
        assert forall t :: t !in u.udpSrcs;
      }
    } else {
      var c :| c in u.srcs;
      assert u.srcs[c].session in u'.udpSrcs && u.srcs[c].session !in CurrentPeers(u');
    }
  }

  /** The deletions one tick posts are those of the sessions that expire. */
  lemma DeletionsExact(srcs: map<Client, Src>, order: seq<Client>, s: nat)
    requires ExpiryOrder(srcs, order)
    ensures DelPeer(s) in DelPeers(srcs, order) <==> s in ExpiredSessions(srcs)
  {
    var dels := DelPeers(srcs, order);
    if s in ExpiredSessions(srcs) {
      var d :| d in srcs && Expires(srcs, d) && srcs[d].session == s;
      var i :| 0 <= i < |order| && order[i] == d;
      assert dels[i] == DelPeer(s);
    }
  }

  lemma LiveNotExpired(u: Udp, c: Client)
    requires Coherent(u) && c in u.srcs && !Expires(u.srcs, c)
    ensures u.srcs[c].session !in ExpiredSessions(u.srcs)
  {
    forall d | d in u.srcs && Expires(u.srcs, d)
      ensures u.srcs[d].session != u.srcs[c].session
    {
      assert u.udpSrcs[u.srcs[d].session] == d;
    }
  }

  lemma ExpireCoherent(u: Udp, order: seq<Client>)
    requires Coherent(u) && ExpiryOrder(u.srcs, order)
    ensures Coherent(Expire(u, order))
  {
    var u' := Expire(u, order);
    var w := u.senders[|u.senders| - 1];
    var dels := DelPeers(u.srcs, order);
    PendingSplit(w.peers, w.inbox, dels);
    assert CurrentPeers(u') == Pending(CurrentPeers(u), dels);
    forall s | s in u'.udpSrcs
      ensures u'.udpSrcs[s] in u'.srcs && u'.srcs[u'.udpSrcs[s]].session == s
      ensures s in CurrentPeers(u') && CurrentPeers(u')[s] == u'.udpSrcs[s]
    {
      assert !Expires(u.srcs, u.udpSrcs[s]);
      DeletionsExact(u.srcs, order, s);
      PendingDeletes(CurrentPeers(u), dels, s);
    }
    forall c | c in u'.srcs
      ensures u'.srcs[c].session in u'.udpSrcs && u'.udpSrcs[u'.srcs[c].session] == c
    {
      LiveNotExpired(u, c);
    }
  }

  lemma ClearCoherent(u: Udp)
    requires Coherent(u)
    ensures Coherent(Clear(u))
  {
  }

  lemma SenderCoherent(u: Udp, i: nat, st: SenderStep)
    requires Coherent(u) && i < |u.senders| && SenderCan(u.senders[i], st)
    ensures Coherent(Do(u, SenderE(i, st)))
  {
    var u' := Do(u, SenderE(i, st));
    var w := u.senders[i];
    if i == |u.senders| - 1 {
      match st
      case Receives => assert CurrentPeers(u') == CurrentPeers(u);
      case TurnsStopped(b) =>
      case Transmits =>
        PendingMonotone(w.peers, SenderDo(w, st).peers, w.inbox);
        assert Submap(CurrentPeers(u), CurrentPeers(u'));
    }
  }

  /** For coherent tables, one event keeps them coherent exactly when it is
      orderly. */
  lemma CoherentExact(u: Udp, e: Event)
    requires Coherent(u) && Can(u, e)
    ensures Coherent(Do(u, e)) <==> Orderly(u, e)
  {
    match e
    case TcpAccepted =>
    case FromClientE(src) => FromClientExact(u, src);
    case ToClientE(f) => ToClientExact(u, f);
    case SenderE(i, st) => SenderCoherent(u, i, st);
    case TickE(idle, order) =>
      if idle {
        ClearCoherent(u);
        ExpireCoherent(Clear(u), order);
      } else {
        ExpireCoherent(u, order);
      }
  }

  ghost predicate CoherentThroughout(u: Udp, es: seq<Event>)
    requires Run(u, es)
    decreases |es|
  {
    Coherent(u) && (es != [] ==> CoherentThroughout(Do(u, es[0]), es[1..]))
  }

  ghost predicate OrderlyThroughout(u: Udp, es: seq<Event>)
    requires Run(u, es)
    decreases |es|
  {
    es != [] ==> Orderly(u, es[0]) && OrderlyThroughout(Do(u, es[0]), es[1..])
  }

  /** Over whole runs: the tables stay coherent throughout exactly when no reply
      goes to an unknown session and no sender is restarted over live ones. */
  lemma {:induction false} RunCoherentExact(u: Udp, es: seq<Event>)
    requires Coherent(u) && Run(u, es)
    ensures CoherentThroughout(u, es) <==> OrderlyThroughout(u, es)
    decreases |es|
  {
    if es != [] {
      CoherentExact(u, es[0]);
      if Coherent(Do(u, es[0])) {
        RunCoherentExact(Do(u, es[0]), es[1..]);
      }
    }
  }

  lemma NewIsCoherent()
    ensures Coherent(NEW_UDP)
  {
  }

  /** The sender's strand runs all handlers that have been posted. */
  function ReceivesAll(w: Sender): Sender
    decreases |w.inbox|
  {
    if w.inbox == [] then w else ReceivesAll(SenderReceive(w))
  }

  /** Then it sends all that is queued. */
  function TransmitsAll(w: Sender): Sender
    decreases |w.queue|
  {
    if w.queue == [] then w else TransmitsAll(Transmit(w))
  }

  lemma {:induction false} ReceivesPending(w: Sender)
    ensures ReceivesAll(w).peers == Pending(w.peers, w.inbox) && ReceivesAll(w).sent == w.sent
    decreases |w.inbox|
  {
    if w.inbox != [] {
      ReceivesPending(SenderReceive(w));
    }
  }

  /** Every queued datagram goes to its session's peer: default endpoints that are
      created on the way do not get in the way of known ones. */
  lemma {:induction false} TransmitsToPeers(w: Sender, i: nat)
    requires i < |w.queue|
    ensures var f := w.queue[i];
            && |TransmitsAll(w).sent| == |w.sent| + |w.queue|
            && TransmitsAll(w).sent[|w.sent| + i] == Datagram(f.session, PeerOf(w.peers, f.session), UdpPayload(f))
    decreases |w.queue|
  {
    var n := Transmit(w);
    if n.queue != [] {
      TransmitsToPeers(n, if i == 0 then 0 else i - 1);
    }
    if i == 0 {
      SentStays(n, |w.sent|);
    }
  }

  lemma {:induction false} SentStays(w: Sender, i: nat)
    requires i < |w.sent|
    ensures i < |TransmitsAll(w).sent| && TransmitsAll(w).sent[i] == w.sent[i]
    decreases |w.queue|
  {
    if w.queue != [] {
      SentStays(Transmit(w), i);
    }
  }

  /** With coherent tables, once the sender's strand has run what was posted to
      it and sent its queue, every reply of a live session in it has gone to the
      client that owns the session. */
  lemma LiveRepliesReachClients(u: Udp, i: nat)
    requires Coherent(u)
    requires var q := ReceivesAll(u.senders[|u.senders| - 1]).queue; i < |q| && q[i].session in u.udpSrcs
    ensures var w := ReceivesAll(u.senders[|u.senders| - 1]);
            var f := w.queue[i];
            && |w.sent| + i < |TransmitsAll(w).sent|
            && TransmitsAll(w).sent[|w.sent| + i] == Datagram(f.session, u.udpSrcs[f.session], UdpPayload(f))
  {
    var w := u.senders[|u.senders| - 1];
    ReceivesPending(w);
    TransmitsToPeers(ReceivesAll(w), i);
  }

  /** The replies among the messages posted to the sender. */
  function Outs(ms: seq<Message>): seq<Frame> {
    if ms == [] then [] else (if ms[0].Out? then [ms[0].frame] else []) + Outs(ms[1..])
  }

  lemma {:induction false} OutIn(ms: seq<Message>, f: Frame)
    requires Out(f) in ms
    ensures f in Outs(ms)
  {
    if ms[0] != Out(f) {
      assert ms == [ms[0]] + ms[1..];
      OutIn(ms[1..], f);
    }
  }

  /** A sender that has not stopped queues all replies posted to it, in order. */
  lemma {:induction false} RepliesAreQueued(w: Sender)
    ensures ReceivesAll(w).queue == w.queue + if w.stopped then [] else Outs(w.inbox)
    decreases |w.inbox|
  {
    if w.inbox != [] {
      RepliesAreQueued(SenderReceive(w));
    }
  }

  /** A reply of a live session that was posted to a sender that has not stopped
      goes to the client of that session. */
  lemma PostedRepliesReachClients(u: Udp, f: Frame)
    requires Coherent(u) && !u.senders[|u.senders| - 1].stopped && f.session in u.udpSrcs
    requires Out(f) in u.senders[|u.senders| - 1].inbox
    ensures Datagram(f.session, u.udpSrcs[f.session], UdpPayload(f))
              in TransmitsAll(ReceivesAll(u.senders[|u.senders| - 1])).sent
  {
    var w := u.senders[|u.senders| - 1];
    RepliesAreQueued(w);
    OutIn(w.inbox, f);
    var j :| 0 <= j < |Outs(w.inbox)| && Outs(w.inbox)[j] == f;
    var q := ReceivesAll(w).queue;
    assert q[|w.queue| + j] == f;
    LiveRepliesReachClients(u, |w.queue| + j);
  }

  /** A tick makes the sender forget the sessions that expire, and only those. */
  lemma ExpiredAreForgotten(u: Udp, order: seq<Client>, s: nat)
    requires u.senders != [] && ExpiryOrder(u.srcs, order)
    requires forall c | c in u.srcs && u.srcs[c].timeout <= 1 :: u.srcs[c].session != 0
    ensures s in CurrentPeers(Expire(u, order)) <==>
              s in CurrentPeers(u) && forall c | c in u.srcs && u.srcs[c].session == s :: u.srcs[c].timeout > 1
    ensures s in CurrentPeers(Expire(u, order)) ==> CurrentPeers(Expire(u, order))[s] == CurrentPeers(u)[s]
  {
    var x := u.senders[|u.senders| - 1];
    var dels := DelPeers(u.srcs, order);
    PendingSplit(x.peers, x.inbox, dels);
    PendingDeletes(CurrentPeers(u), dels, s);
    DeletionsExact(u.srcs, order, s);
    ExpiringExact(u.srcs, s);
  }

  lemma ExpiringExact(srcs: map<Client, Src>, s: nat)
    ensures s !in ExpiredSessions(srcs) <==> forall c | c in srcs && srcs[c].session == s :: srcs[c].timeout > 1
  {
    if c :| c in srcs && srcs[c].session == s && srcs[c].timeout <= 1 {
      assert Expires(srcs, c);
    }
  }

  /** Why replies to unknown sessions matter: the entry one creates belongs to
      session 0, and the tick on which it expires forgets every peer. */
  lemma SessionZeroForgetsEveryone(u: Udp, c: Client, order: seq<Client>)
    requires u.senders != [] && Expires(u.srcs, c) && u.srcs[c].session == 0 && ExpiryOrder(u.srcs, order)
    ensures CurrentPeers(Expire(u, order)) == map[]
  {
    var x := u.senders[|u.senders| - 1];
    var dels := DelPeers(u.srcs, order);
    PendingSplit(x.peers, x.inbox, dels);
    var i :| 0 <= i < |order| && order[i] == c;
    ClearWins(Pending(x.peers, x.inbox), dels, i);
  }

  /** The loop over the clients in a tick ages each of them. */
  lemma {:induction false} SessionZeroExpires(u: Udp, es: seq<Event>)
    requires Run(u, es) && es != [] && forall i | 0 <= i < |es| :: es[i].TickE? && !es[i].tlsIdle
    requires Anyone in u.srcs && u.srcs[Anyone] == Src(0, |es|)
    ensures After(u, es).senders != [] && CurrentPeers(After(u, es)) == map[]
    decreases |es|
  {
    if |es| == 1 {
      SessionZeroForgetsEveryone(u, Anyone, es[0].order);
      assert After(u, es) == Do(u, es[0]) by {
        assert es[1..] == [];
      }
    } else {
      var v := Do(u, es[0]);
      assert v.srcs[Anyone] == Src(0, |es| - 1);
      forall i | 0 <= i < |es[1..]|
        ensures es[1..][i].TickE? && !es[1..][i].tlsIdle
      {
        assert es[1..][i] == es[i + 1];
      }
      SessionZeroExpires(v, es[1..]);
    }
  }

  /** A reply to a session that is not live: nine ticks later, with nothing else
      in between, the sender has forgotten the peers of all live sessions. */
  lemma UnknownReplyForgetsEveryone(u: Udp, f: Frame, ticks: seq<Event>)
    requires Coherent(u) && f.session !in u.udpSrcs && Anyone !in u.srcs
    requires |ticks| == TIMEOUT && Run(ToClient(u, f), ticks)
    requires forall i | 0 <= i < |ticks| :: ticks[i].TickE? && !ticks[i].tlsIdle
    ensures var v := After(ToClient(u, f), ticks);
            v.senders != [] && CurrentPeers(v) == map[]
  {
    SessionZeroExpires(ToClient(u, f), ticks);
  }

  lemma {:induction false} ClearWins(peers: map<nat, Client>, ms: seq<Message>, i: nat)
    requires forall j | 0 <= j < |ms| :: ms[j].DelPeer?
    requires i < |ms| && ms[i] == DelPeer(0)
    ensures Pending(peers, ms) == map[]
    decreases |ms|
  {
    if i == 0 {
      EmptyStays(ms[1..]);
    } else {
      ClearWins(Handle(peers, ms[0]), ms[1..], i - 1);
    }
  }

  lemma {:induction false} EmptyStays(ms: seq<Message>)
    requires forall j | 0 <= j < |ms| :: ms[j].DelPeer?
    ensures Pending(map[], ms) == map[]
    decreases |ms|
  {
    if ms != [] {
      assert Handle(map[], ms[0]) == map[];
      EmptyStays(ms[1..]);
    }
  }

  // -------------------------------------------------------------- idle expiry

  /** k ticks without a datagram in either direction. */
  function AgedBy(srcs: map<Client, Src>, k: nat): map<Client, Src> {
    if k == 0 then srcs else AgedBy(Aged(srcs), k - 1)
  }

  /** A client set to `timeout` is there before that many ticks and gone from
      then on: one that was just heard of leaves on the ninth tick. */
  lemma {:induction false} IdleExact(srcs: map<Client, Src>, c: Client, k: nat)
    requires c in srcs && srcs[c].timeout >= 1
    ensures c in AgedBy(srcs, k) <==> k < srcs[c].timeout
    ensures c in AgedBy(srcs, k) ==> AgedBy(srcs, k)[c] == Src(srcs[c].session, srcs[c].timeout - k)
    decreases k
  {
    if k > 0 {
      if c in Aged(srcs) {
        IdleExact(Aged(srcs), c, k - 1);
      } else {
        GoneStaysGone(Aged(srcs), c, k - 1);
      }
    }
  }

  lemma {:induction false} GoneStaysGone(srcs: map<Client, Src>, c: Client, k: nat)
    requires c !in srcs
    ensures c !in AgedBy(srcs, k)
    decreases k
  {
    if k > 0 {
      GoneStaysGone(Aged(srcs), c, k - 1);
    }
  }
}
