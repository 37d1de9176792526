/** The session numbers and the two UDP tables of relay_manager, and the peer
    table of the raw_udp sender the manager posts to. */
module UdpTables {
  import opened Bytes
  import opened RelayData

  /** A udp::endpoint: default-constructed, or one of a client. */
  datatype Client = Anyone | Host(id: nat)

  datatype Src = Src(session: nat, timeout: int)

  datatype Message = AddPeer(session: nat, peer: Client) | DelPeer(session: nat) | Out(frame: Frame)
  datatype Datagram = Datagram(session: nat, dst: Client, payload: seq<byte>)

  /** The local raw_udp: what was posted to it, its queue and its peers. */
  datatype Sender = Sender(stopped: bool, inbox: seq<Message>, queue: seq<Frame>,
                           peers: map<nat, Client>, sent: seq<Datagram>)

  const NEW_SENDER := Sender(false, [], [], map[], [])

  /** `session` is the manager's counter, shared with TCP; the last sender is
      the current one; `owners` records which client opened which session. */
  datatype Udp = Udp(session: nat, srcs: map<Client, Src>, udpSrcs: map<nat, Client>,
                     senders: seq<Sender>, owners: map<nat, Client>)

  const NEW_UDP := Udp(1, map[], map[], [NEW_SENDER], map[])

  // ------------------------------------------------------------- the manager

  /** add_local_raw_tcp: `_session++`. */
  function NextTcp(u: Udp): Udp {
    u.(session := u.session + 1)
  }

  function PostToSender(u: Udp, m: Message): Udp
    requires u.senders != []
  {
    var k := |u.senders| - 1;
    u.(senders := u.senders[k := u.senders[k].(inbox := u.senders[k].inbox + [m])])
  }

  function Stopped(u: Udp): bool
    requires u.senders != []
  {
    u.senders[|u.senders| - 1].stopped
  }

  function Restart(u: Udp): Udp
    requires u.senders != []
  {
    if Stopped(u) then u.(senders := u.senders + [NEW_SENDER]) else u
  }

  /** The session of a client, if it has one. */
  function SessionOf(u: Udp, src: Client): nat {
    if src in u.srcs then u.srcs[src].session else 0
  }

  /** send_udp_data up to add_request: `++_session` for a new client. map::insert
      leaves an existing entry alone. */
  function FromClient(u: Udp, src: Client): (u': Udp)
    requires u.senders != []
    ensures u'.senders != []
  {
    if SessionOf(u, src) != 0 then
      u.(srcs := u.srcs[src := Src(SessionOf(u, src), TIMEOUT)])
    else
      var s := u.session + 1;
      var v := PostToSender(Restart(u.(session := s)), AddPeer(s, src));
      v.(srcs := u.srcs[src := Src(s, TIMEOUT)],
         udpSrcs := if s in u.udpSrcs then u.udpSrcs else u.udpSrcs[s := src],
         owners := u.owners[s := src])
  }

  /** local_transparent_send_udp and the timeout reset behind it; operator[]
      creates the entries it does not find. */
  function ToClient(u: Udp, f: Frame): (u': Udp)
    requires u.senders != []
    ensures u'.senders != []
  {
    var v := PostToSender(Restart(u), Out(f));
    var c := if f.session in u.udpSrcs then u.udpSrcs[f.session] else Anyone;
    v.(udpSrcs := u.udpSrcs[f.session := c],
       srcs := u.srcs[c := Src(SessionOf(u, c), TIMEOUT)])
  }

  /** The tick when the TLS connection has timed out. */
  function Clear(u: Udp): Udp
    requires u.senders != []
  {
    PostToSender(u.(srcs := map[], udpSrcs := map[]), DelPeer(0))
  }

  predicate Expires(srcs: map<Client, Src>, c: Client) {
    c in srcs && srcs[c].timeout - 1 <= 0
  }

  /** The order in which a tick's loop meets the clients that expire. */
  ghost predicate ExpiryOrder(srcs: map<Client, Src>, order: seq<Client>) {
    && (forall i | 0 <= i < |order| :: Expires(srcs, order[i]))
    && (forall i, j | 0 <= i < j < |order| :: order[i] != order[j])
    && (forall c | Expires(srcs, c) :: c in order)
  }

  /** The entry of a client that a tick leaves in. */
  function Older(srcs: map<Client, Src>, c: Client): Src {
    if c in srcs && !Expires(srcs, c) then Src(srcs[c].session, srcs[c].timeout - 1) else Src(0, 0)
  }

  function Aged(srcs: map<Client, Src>): map<Client, Src> {
    map c | c in srcs && !Expires(srcs, c) :: Older(srcs, c)
  }

  function DelPeers(srcs: map<Client, Src>, order: seq<Client>): (ms: seq<Message>)
    requires forall i | 0 <= i < |order| :: order[i] in srcs
    ensures |ms| == |order| && forall i | 0 <= i < |ms| :: ms[i] == DelPeer(srcs[order[i]].session)
  {
    if order == [] then [] else [DelPeer(srcs[order[0]].session)] + DelPeers(srcs, order[1..])
  }

  function ExpiredSessions(srcs: map<Client, Src>): set<nat> {
    set c | c in srcs && Expires(srcs, c) :: srcs[c].session
  }

  /** The loop over _srcs in one tick. */
  function Expire(u: Udp, order: seq<Client>): Udp
    requires u.senders != [] && forall i | 0 <= i < |order| :: order[i] in u.srcs
  {
    var k := |u.senders| - 1;
    u.(srcs := Aged(u.srcs), udpSrcs := u.udpSrcs - ExpiredSessions(u.srcs),
       senders := u.senders[k := u.senders[k].(inbox := u.senders[k].inbox + DelPeers(u.srcs, order))])
  }

  // -------------------------------------------------------------- the sender

  function Handle(peers: map<nat, Client>, m: Message): map<nat, Client> {
    match m
    case AddPeer(s, c) => peers[s := c]
    case DelPeer(s) => if s == 0 then map[] else peers - {s}
    case Out(_) => peers
  }

  /** add_peer, del_peer and send_data on the sender's strand. */
  function SenderReceive(w: Sender): Sender
    requires w.inbox != []
  {
    var m := w.inbox[0];
    w.(inbox := w.inbox[1..], peers := Handle(w.peers, m),
       queue := if m.Out? && !w.stopped then w.queue + [m.frame] else w.queue)
  }

  /** get_send_data_addr: `_peers[session]` creates a default endpoint. */
  function PeerOf(peers: map<nat, Client>, s: nat): Client {
    if s in peers then peers[s] else Anyone
  }

  function Transmit(w: Sender): Sender
    requires w.queue != []
  {
    var f := w.queue[0];
    var dst := PeerOf(w.peers, f.session);
    w.(queue := w.queue[1..], peers := w.peers[f.session := dst],
       sent := w.sent + [Datagram(f.session, dst, UdpPayload(f))])
  }

  datatype SenderStep = Receives | Transmits | TurnsStopped(b: bool)

  predicate SenderCan(w: Sender, st: SenderStep) {
    match st
    case Receives => w.inbox != []
    case Transmits => w.queue != []
    case TurnsStopped(_) => true
  }

  function SenderDo(w: Sender, st: SenderStep): Sender
    requires SenderCan(w, st)
  {
    match st
    case Receives => SenderReceive(w)
    case Transmits => Transmit(w)
    case TurnsStopped(b) => w.(stopped := b)
  }

  // -------------------------------------------------------------------- runs

  datatype Event =
    | TcpAccepted
    | FromClientE(src: Client)
    | ToClientE(f: Frame)
    | TickE(tlsIdle: bool, order: seq<Client>)
    | SenderE(i: nat, step: SenderStep)

  ghost predicate Can(u: Udp, e: Event) {
    match e
    case TickE(idle, order) => ExpiryOrder(if idle then map[] else u.srcs, order)
    case SenderE(i, st) => i < |u.senders| && SenderCan(u.senders[i], st)
    case _ => u.senders != []
  }

  ghost function Do(u: Udp, e: Event): Udp
    requires u.senders != [] && Can(u, e)
  {
    match e
    case TcpAccepted => NextTcp(u)
    case FromClientE(src) => FromClient(u, src)
    case ToClientE(f) => ToClient(u, f)
    case TickE(idle, order) => Expire(if idle then Clear(u) else u, order)
    case SenderE(i, st) => u.(senders := u.senders[i := SenderDo(u.senders[i], st)])
  }

  ghost predicate Run(u: Udp, es: seq<Event>)
    decreases |es|
  {
    u.senders != [] && (es != [] ==> Can(u, es[0]) && Run(Do(u, es[0]), es[1..]))
  }

  ghost function After(u: Udp, es: seq<Event>): Udp
    requires Run(u, es)
    decreases |es|
  {
    if es == [] then u else After(Do(u, es[0]), es[1..])
  }

  // ------------------------------------------------ replies go to their owner

  predicate Owned(u: Udp, s: nat, c: Client) {
    c == Anyone || (s in u.owners && u.owners[s] == c)
  }

  predicate SenderOwned(u: Udp, w: Sender) {
    && (forall s | s in w.peers :: Owned(u, s, w.peers[s]))
    && (forall i | 0 <= i < |w.inbox| :: w.inbox[i].AddPeer? ==> Owned(u, w.inbox[i].session, w.inbox[i].peer))
    && (forall i | 0 <= i < |w.sent| :: Owned(u, w.sent[i].session, w.sent[i].dst))
  }

  predicate OwnerInv(u: Udp) {
    && u.senders != []
    && (forall s | s in u.owners :: s <= u.session)
    && (forall i | 0 <= i < |u.senders| :: SenderOwned(u, u.senders[i]))
  }

  lemma SenderKeepsOwned(u: Udp, w: Sender, st: SenderStep)
    requires SenderOwned(u, w) && SenderCan(w, st)
    ensures SenderOwned(u, SenderDo(w, st))
  {
    match st
    case Receives =>
      var m := w.inbox[0];
      assert m.AddPeer? ==> Owned(u, m.session, m.peer);
    case Transmits =>
    case TurnsStopped(b) =>
  }

  /** More sessions may be opened meanwhile: a session's owner never changes. */
  lemma OwnedGrows(u: Udp, u': Udp, w: Sender)
    requires SenderOwned(u, w) && forall s | s in u.owners :: s in u'.owners && u'.owners[s] == u.owners[s]
    ensures SenderOwned(u', w)
  {
    forall s, c | Owned(u, s, c)
      ensures Owned(u', s, c)
    {
    }
  }

  lemma PostKeepsOwned(u: Udp, m: Message)
    requires OwnerInv(u) && (m.AddPeer? ==> Owned(u, m.session, m.peer))
    ensures OwnerInv(PostToSender(u, m))
  {
    var k := |u.senders| - 1;
    var u' := PostToSender(u, m);
    forall i | 0 <= i < |u'.senders|
      ensures SenderOwned(u', u'.senders[i])
    {
      OwnedGrows(u, u', u.senders[i]);
    }
  }

  lemma FromClientKeepsOwned(u: Udp, src: Client)
    requires OwnerInv(u)
    ensures OwnerInv(FromClient(u, src))
  {
    hide Owned;
    if SessionOf(u, src) == 0 {
      var s := u.session + 1;
      var v := Restart(u.(session := s, owners := u.owners[s := src]));
      forall i | 0 <= i < |v.senders|
        ensures SenderOwned(v, v.senders[i])
      {
        if i < |u.senders| {
          OwnedGrows(u, v, u.senders[i]);
        }
      }
      PostKeepsOwned(v, AddPeer(s, src));
      var w := PostToSender(v, AddPeer(s, src));
      SameSenders(w, FromClient(u, src));
    } else {
      SameSenders(u, FromClient(u, src));
    }
  }

  lemma SameSenders(u: Udp, u': Udp)
    requires OwnerInv(u) && u'.senders == u.senders && u'.owners == u.owners && u'.session >= u.session
    ensures OwnerInv(u')
  {
    forall i | 0 <= i < |u'.senders|
      ensures SenderOwned(u', u'.senders[i])
    {
      OwnedGrows(u, u', u.senders[i]);
    }
  }

  lemma RestartKeepsOwned(u: Udp)
    requires OwnerInv(u)
    ensures OwnerInv(Restart(u))
  {
    var v := Restart(u);
    forall i | 0 <= i < |v.senders|
      ensures SenderOwned(v, v.senders[i])
    {
      if i < |u.senders| {
        OwnedGrows(u, v, u.senders[i]);
      }
    }
  }

  lemma ExpireKeepsOwned(u: Udp, order: seq<Client>)
    requires OwnerInv(u) && forall i | 0 <= i < |order| :: order[i] in u.srcs
    ensures OwnerInv(Expire(u, order))
  {
    var u' := Expire(u, order);
    forall i | 0 <= i < |u'.senders|
      ensures SenderOwned(u', u'.senders[i])
    {
      OwnedGrows(u, u', u.senders[i]);
    }
  }

  lemma DoKeepsOwned(u: Udp, e: Event)
    requires OwnerInv(u) && Can(u, e)
    ensures OwnerInv(Do(u, e))
  {
    match e
    case TcpAccepted => SameSenders(u, Do(u, e));
    case FromClientE(src) => FromClientKeepsOwned(u, src);
    case ToClientE(f) =>
      RestartKeepsOwned(u);
      PostKeepsOwned(Restart(u), Out(f));
      SameSenders(PostToSender(Restart(u), Out(f)), ToClient(u, f));
    case TickE(idle, order) =>
      if idle {
        SameSenders(u, u.(srcs := map[], udpSrcs := map[]));
        PostKeepsOwned(u.(srcs := map[], udpSrcs := map[]), DelPeer(0));
        ExpireKeepsOwned(Clear(u), order);
      } else {
        ExpireKeepsOwned(u, order);
      }
    case SenderE(i, st) =>
      var u' := Do(u, e);
      SenderKeepsOwned(u, u.senders[i], st);
      forall j | 0 <= j < |u'.senders|
        ensures SenderOwned(u', u'.senders[j])
      {
        OwnedGrows(u, u', if j == i then SenderDo(u.senders[i], st) else u.senders[j]);
      }
  }

  /** Over every run, with expiry, clearing, replies to unknown sessions and
      sender restarts: a datagram of session s is sent to the client that opened
      s or to nobody in particular, never to another client. */
  lemma {:induction false} NeverMisdelivered(u: Udp, es: seq<Event>)
    requires OwnerInv(u) && Run(u, es)
    ensures OwnerInv(After(u, es))
    ensures forall i, j | 0 <= i < |After(u, es).senders| && 0 <= j < |After(u, es).senders[i].sent| ::
              Owned(After(u, es), After(u, es).senders[i].sent[j].session, After(u, es).senders[i].sent[j].dst)
    decreases |es|
  {
    if es != [] {
      DoKeepsOwned(u, es[0]);
      NeverMisdelivered(Do(u, es[0]), es[1..]);
    } else {
      forall i | 0 <= i < |u.senders|
        ensures SenderOwned(u, u.senders[i])
      {
      }
    }
  }

  lemma NewIsOwned()
    ensures OwnerInv(NEW_UDP)
  {
  }
}
