/** relay_manager as an object: its tables and the handlers of its strand, each
    proved to do what Endpoints says. Pointers to relays are positions in the
    lists `objs` and `ssls`. */
module RelayManagers {
  import opened Bytes
  import opened RelayData
  import opened RelayQueue
  import opened Endpoints
  import A = Addresses
  import U = UdpTables

  /** The relays after g has been applied to those of some sessions' entries. */
  function Applied(e: Endpoint, done: set<nat>, g: Relay -> Relay): (objs: seq<Obj>)
    ensures |objs| == |e.objs|
  {
    seq(|e.objs|, i requires 0 <= i < |e.objs| =>
      if InTable(e, i) && e.objs[i].session in done then e.objs[i].(relay := g(e.objs[i].relay)) else e.objs[i])
  }

  /** One more entry. No relay is in the table under two numbers. */
  lemma AppliedOne(e: Endpoint, done: set<nat>, g: Relay -> Relay, s: nat)
    requires TableOk(e) && s in e.relays && s !in done
    ensures e.relays[s].None? ==> Applied(e, done + {s}, g) == Applied(e, done, g)
    ensures e.relays[s].Some? ==>
              var v := e.relays[s].value;
              && Applied(e, done, g)[v] == e.objs[v]
              && Applied(e, done + {s}, g) == Applied(e, done, g)[v := e.objs[v].(relay := g(e.objs[v].relay))]
  {
    var a, b := Applied(e, done, g), Applied(e, done + {s}, g);
    if e.relays[s].Some? {
      var v := e.relays[s].value;
      assert InTable(e, v);
      forall i | 0 <= i < |e.objs| && i != v
        ensures b[i] == a[i]
      {
        assert InTable(e, i) ==> e.objs[i].session != s;
      }
      assert b == a[v := b[v]];
    } else {
      forall i | 0 <= i < |e.objs|
        ensures b[i] == a[i]
      {
        assert InTable(e, i) ==> e.objs[i].session != s;
      }
    }
  }

  lemma AppliedNone(e: Endpoint, g: Relay -> Relay)
    ensures Applied(e, {}, g) == e.objs
  {
  }

  lemma HaltsAll(e: Endpoint)
    requires TableOk(e)
    ensures Applied(e, e.relays.Keys, r => Post(r, Halt)) == HaltAll(e)
  {
  }

  lemma TicksAll(e: Endpoint)
    requires TableOk(e)
    ensures Applied(e, e.relays.Keys, r => TimeoutDown(r)) == TickObjs(e)
  {
  }

  /** _relays after the tick's loop has passed some of its entries. */
  function Kept(e: Endpoint, done: set<nat>): map<nat, Option<nat>>
    requires TableOk(e)
  {
    map s | s in e.relays && (s in done ==> Survives(e, s)) :: e.relays[s]
  }

  lemma KeptOne(e: Endpoint, done: set<nat>, s: nat)
    requires TableOk(e) && s in e.relays && s !in done
    ensures s in Kept(e, done) && Kept(e, done)[s] == e.relays[s]
    ensures Kept(e, done + {s}) == if Survives(e, s) then Kept(e, done) else Kept(e, done) - {s}
  {
  }

  lemma KeptAll(e: Endpoint)
    requires TableOk(e)
    ensures Kept(e, {}) == e.relays && Kept(e, e.relays.Keys) == Endpoints.TickRelays(e).relays
  {
  }

  /** The UDP tables after the tick's loop over _srcs has passed some clients;
      `order` are those of them that have expired. */
  function ExpireIn(u: U.Udp, done: set<U.Client>, order: seq<U.Client>): U.Udp
    requires u.senders != [] && forall i | 0 <= i < |order| :: order[i] in u.srcs
  {
    var k := |u.senders| - 1;
    u.(srcs := AgedIn(u.srcs, done), udpSrcs := u.udpSrcs - ExpiredIn(u.srcs, done),
       senders := u.senders[k := u.senders[k].(inbox := u.senders[k].inbox + U.DelPeers(u.srcs, order))])
  }

  function AgedIn(srcs: map<U.Client, U.Src>, done: set<U.Client>): map<U.Client, U.Src> {
    map c | c in srcs && (c in done ==> !U.Expires(srcs, c)) :: OlderIn(srcs, done, c)
  }

  function OlderIn(srcs: map<U.Client, U.Src>, done: set<U.Client>, c: U.Client): U.Src {
    if c !in srcs || c in done then U.Older(srcs, c) else srcs[c]
  }

  function ExpiredIn(srcs: map<U.Client, U.Src>, done: set<U.Client>): set<nat> {
    set c | c in srcs && c in done && U.Expires(srcs, c) :: srcs[c].session
  }

  ghost predicate OrderIn(srcs: map<U.Client, U.Src>, done: set<U.Client>, order: seq<U.Client>) {
    && (forall i | 0 <= i < |order| :: U.Expires(srcs, order[i]) && order[i] in done)
    && (forall i, j | 0 <= i < j < |order| :: order[i] != order[j])
    && (forall c | c in done && U.Expires(srcs, c) :: c in order)
  }

  lemma ExpireStart(u: U.Udp)
    requires u.senders != []
    ensures ExpireIn(u, {}, []) == u
  {
    var k := |u.senders| - 1;
    assert u.senders[k].inbox + U.DelPeers(u.srcs, []) == u.senders[k].inbox;
    assert AgedIn(u.srcs, {}) == u.srcs;
  }

  lemma ExpireAll(u: U.Udp, order: seq<U.Client>)
    requires u.senders != [] && OrderIn(u.srcs, u.srcs.Keys, order)
    ensures U.ExpiryOrder(u.srcs, order) && ExpireIn(u, u.srcs.Keys, order) == U.Expire(u, order)
  {
    assert AgedIn(u.srcs, u.srcs.Keys) == U.Aged(u.srcs);
    assert ExpiredIn(u.srcs, u.srcs.Keys) == U.ExpiredSessions(u.srcs);
  }

  /** One turn of that loop. */
  function SrcTicked(u: U.Udp, c: U.Client): U.Udp
    requires u.senders != [] && c in u.srcs
  {
    var s := u.srcs[c];
    if s.timeout - 1 <= 0
    then U.PostToSender(u.(srcs := u.srcs - {c}, udpSrcs := u.udpSrcs - {s.session}), U.DelPeer(s.session))
    else u.(srcs := u.srcs[c := U.Src(s.session, s.timeout - 1)])
  }

  lemma AgedOne(srcs: map<U.Client, U.Src>, done: set<U.Client>, c: U.Client)
    requires c in srcs && c !in done
    ensures c in AgedIn(srcs, done) && AgedIn(srcs, done)[c] == srcs[c]
    ensures AgedIn(srcs, done + {c}) ==
              if U.Expires(srcs, c) then AgedIn(srcs, done) - {c}
              else AgedIn(srcs, done)[c := U.Src(srcs[c].session, srcs[c].timeout - 1)]
    ensures ExpiredIn(srcs, done + {c}) == ExpiredIn(srcs, done) + if U.Expires(srcs, c) then {srcs[c].session} else {}
  {
  }

  lemma OrderOne(srcs: map<U.Client, U.Src>, done: set<U.Client>, order: seq<U.Client>, c: U.Client)
    requires OrderIn(srcs, done, order) && c !in done
    ensures OrderIn(srcs, done + {c}, if U.Expires(srcs, c) then order + [c] else order)
  {
    assert (order + [c])[|order|] == c;
    forall x | x in done + {c} && U.Expires(srcs, x)
      ensures x in order + [c] && (!U.Expires(srcs, c) ==> x in order)
    {
      assert x != c ==> x in order;
    }
  }

  lemma DeleteOne(u: U.Udp, done: set<U.Client>, order: seq<U.Client>, c: U.Client)
    requires u.senders != [] && OrderIn(u.srcs, done, order) && c in u.srcs && U.Expires(u.srcs, c)
    ensures ExpireIn(u, done, order + [c]).senders ==
            U.PostToSender(ExpireIn(u, done, order), U.DelPeer(u.srcs[c].session)).senders
  {
    var v := ExpireIn(u, done, order);
    var k := |u.senders| - 1;
    assert U.DelPeers(u.srcs, order + [c]) == U.DelPeers(u.srcs, order) + [U.DelPeer(u.srcs[c].session)];
    assert ExpireIn(u, done, order + [c]).senders[k].inbox == v.senders[k].inbox + [U.DelPeer(u.srcs[c].session)];
  }

  lemma ExpireOne(u: U.Udp, done: set<U.Client>, order: seq<U.Client>, c: U.Client)
    requires u.senders != [] && OrderIn(u.srcs, done, order) && c in u.srcs && c !in done
    ensures c in ExpireIn(u, done, order).srcs
    ensures var order' := if U.Expires(u.srcs, c) then order + [c] else order;
            && OrderIn(u.srcs, done + {c}, order')
            && ExpireIn(u, done + {c}, order') == SrcTicked(ExpireIn(u, done, order), c)
  {
    AgedOne(u.srcs, done, c);
    OrderOne(u.srcs, done, order, c);
    if U.Expires(u.srcs, c) {
      ExpireDeletes(u, done, order, c);
    } else {
      ExpireAges(u, done, order, c);
    }
  }

  lemma ExpireDeletes(u: U.Udp, done: set<U.Client>, order: seq<U.Client>, c: U.Client)
    requires u.senders != [] && OrderIn(u.srcs, done, order) && c in u.srcs && U.Expires(u.srcs, c)
    requires c in AgedIn(u.srcs, done) && AgedIn(u.srcs, done)[c] == u.srcs[c]
    requires AgedIn(u.srcs, done + {c}) == AgedIn(u.srcs, done) - {c}
    requires ExpiredIn(u.srcs, done + {c}) == ExpiredIn(u.srcs, done) + {u.srcs[c].session}
    ensures ExpireIn(u, done + {c}, order + [c]) == SrcTicked(ExpireIn(u, done, order), c)
  {
    DeleteOne(u, done, order, c);
    MinusTwice(u.udpSrcs, ExpiredIn(u.srcs, done), {u.srcs[c].session});
    var a, b := ExpireIn(u, done + {c}, order + [c]), SrcTicked(ExpireIn(u, done, order), c);
    assert a.senders == ExpireIn(u, done, order + [c]).senders;
    assert a == b.(senders := a.senders);
  }

  lemma ExpireAges(u: U.Udp, done: set<U.Client>, order: seq<U.Client>, c: U.Client)
    requires u.senders != [] && OrderIn(u.srcs, done, order) && c in u.srcs && !U.Expires(u.srcs, c)
    requires c in AgedIn(u.srcs, done) && AgedIn(u.srcs, done)[c] == u.srcs[c]
    requires AgedIn(u.srcs, done + {c}) == AgedIn(u.srcs, done)[c := U.Src(u.srcs[c].session, u.srcs[c].timeout - 1)]
    requires ExpiredIn(u.srcs, done + {c}) == ExpiredIn(u.srcs, done)
    ensures ExpireIn(u, done + {c}, order) == SrcTicked(ExpireIn(u, done, order), c)
  {
  }

  lemma MinusTwice(m: map<nat, U.Client>, a: set<nat>, b: set<nat>)
    ensures m - (a + b) == m - a - b
  {
  }

  class RelayManager {
    const role: Role
    var running: bool
    var timing: bool
    var faulted: bool
    var ssl: Option<nat>
    var ssls: seq<Relay>
    var relays: map<nat, Option<nat>>
    var objs: seq<Obj>
    var session: nat
    var srcs: map<U.Client, U.Src>
    var udpSrcs: map<nat, U.Client>
    var senders: seq<U.Sender>             // the last one is _udp_send
    ghost var owners: map<nat, U.Client>
    ghost var handled: seq<Frame>

    ghost function Udp(): U.Udp
      reads this
    {
      U.Udp(session, srcs, udpSrcs, senders, owners)
    }

    ghost function View(): Endpoint
      reads this
    {
      Endpoint(role, running, timing, faulted, ssl, ssls, relays, objs, Udp(), handled)
    }

    /** What the pointers held may be followed. */
    ghost predicate Valid()
      reads this
    {
      TableOk(View()) && SslOk(View()) && senders != []
    }

    constructor Local(r: Role)
      requires r != RemoteServer
      ensures View() == NewLocal(r) && Valid()
    {
      role, running, timing, faulted, ssl, ssls, relays, objs := r, true, true, false, None, [], map[], [];
      session, srcs, udpSrcs, senders, owners, handled := 1, map[], map[], [U.NEW_SENDER], map[], [];
    }

    /** set_ssl and manager_start for an accepted connection. */
    constructor Remote()
      ensures View() == NewRemote() && Valid()
    {
      role, running, timing, faulted, ssl, ssls, relays, objs :=
        RemoteServer, true, true, false, Some(0), [Fresh(Ssl, false)], map[], [];
      session, srcs, udpSrcs, senders, owners, handled := 1, map[], map[], [U.NEW_SENDER], map[], [];
    }

    // ----------------------------------------------------- talking to relays

    method PostTo(i: nat, m: RelayQueue.Message)
      requires i < |objs|
      modifies `objs
      ensures View() == PostObj(old(View()), i, m)
    {
      objs := objs[i := objs[i].(relay := Post(objs[i].relay, m))];
    }

    method PostToSender(m: U.Message)
      requires senders != []
      modifies `senders
      ensures Udp() == U.PostToSender(old(Udp()), m)
    {
      var k := |senders| - 1;
      senders := senders[k := senders[k].(inbox := senders[k].inbox + [m])];
    }

    method StartLocalUdp()
      modifies `senders
      ensures senders == old(senders) + [U.NEW_SENDER]
    {
      senders := senders + [U.NEW_SENDER];
    }

    /** stop_manager's loop over _relays. */
    method StopManager()
      requires TableOk(View())
      modifies `objs, `relays, `running
      ensures View() == Endpoints.StopManager(old(View()))
    {
      ghost var e := View();
      StopRelays();
      HaltsAll(e);
      relays := map[];
      running := false;
    }

    method StopRelays()
      requires TableOk(View())
      modifies `objs
      ensures objs == Applied(old(View()), relays.Keys, r => Post(r, Halt))
    {
      ghost var e := View();
      ghost var halt := (r: Relay) => Post(r, Halt);
      ghost var done: set<nat> := {};
      var left := relays.Keys;
      AppliedNone(e, halt);
      while left != {}
        invariant left + done == e.relays.Keys && left !! done && objs == Applied(e, done, halt)
        decreases |left|
      {
        var s :| s in left;
        left := left - {s};
        AppliedOne(e, done, halt, s);
        done := done + {s};
        if relays[s].Some? {
          PostTo(relays[s].value, Halt);
        }
      }
    }

    // ------------------------------------------------------------ the timer

    /** The tick's loop over _relays, erasing while it iterates. */
    method TickRelays()
      requires TableOk(View())
      modifies `objs, `relays
      ensures View() == Endpoints.TickRelays(old(View()))
    {
      hide InTable, Kept, Applied;
      ghost var e := View();
      ghost var tick := (r: Relay) => TimeoutDown(r);
      ghost var done: set<nat> := {};
      var left := relays.Keys;
      AppliedNone(e, tick);
      KeptAll(e);
      while left != {}
        invariant left + done == e.relays.Keys && left !! done
        invariant objs == Applied(e, done, tick) && relays == Kept(e, done)
        decreases |left|
      {
        var s :| s in left;
        left := left - {s};
        AppliedOne(e, done, tick, s);
        KeptOne(e, done, s);
        done := done + {s};
        TickRelay(s);
      }
      TicksAll(e);
    }

    /** One turn of that loop: relay->timeout_down(), and what follows from it. */
    method TickRelay(s: nat)
      requires s in relays && (relays[s].Some? ==> relays[s].value < |objs|)
      modifies `objs, `relays
      ensures old(relays)[s].None? ==> objs == old(objs) && relays == old(relays) - {s}
      ensures old(relays)[s].Some? ==>
                var v := old(relays)[s].value;
                var r := TimeoutDown(old(objs)[v].relay);
                && objs == old(objs)[v := old(objs)[v].(relay := r)]
                && relays == if r.timeout != 0 then old(relays) else old(relays) - {s}
    {
      if relays[s].Some? {
        var v := relays[s].value;
        var r := TimeoutDown(objs[v].relay);
        objs := objs[v := objs[v].(relay := r)];
        if r.timeout != 0 {
          return;
        }
      }
      relays := relays - {s};
    }

    /** The tick's loop over _srcs, erasing while it iterates; `order` is the
        order in which it met the clients that expired. */
    method TickSrcs() returns (ghost order: seq<U.Client>)
      requires senders != []
      modifies `srcs, `udpSrcs, `senders
      ensures U.ExpiryOrder(old(srcs), order) && Udp() == U.Expire(old(Udp()), order)
    {
      ghost var u := Udp();
      ghost var done: set<U.Client> := {};
      order := [];
      var left := srcs.Keys;
      ExpireStart(u);
      while left != {}
        invariant left + done == u.srcs.Keys && left !! done
        invariant OrderIn(u.srcs, done, order) && Udp() == ExpireIn(u, done, order)
        decreases |left|
      {
        var c :| c in left;
        left := left - {c};
        ExpireOne(u, done, order, c);
        order := if U.Expires(u.srcs, c) then order + [c] else order;
        done := done + {c};
        TickSrc(c);
      }
      ExpireAll(u, order);
    }

    /** One turn of that loop. */
    method TickSrc(c: U.Client)
      requires senders != [] && c in srcs
      modifies `srcs, `udpSrcs, `senders
      ensures Udp() == SrcTicked(old(Udp()), c)
    {
      var s := srcs[c];
      if s.timeout - 1 <= 0 {
        udpSrcs := udpSrcs - {s.session};
        PostToSender(U.DelPeer(s.session));
        srcs := srcs - {c};
      } else {
        srcs := srcs[c := U.Src(s.session, s.timeout - 1)];
      }
    }

    /** _ssl->timeout_down() == 0. */
    method SslTimedOut() returns (idle: bool)
      requires SslOk(View())
      modifies `ssls
      ensures View() == TickSsl(old(View())) && (idle <==> SslIdle(old(View())))
    {
      idle := false;
      if ssl.Some? {
        var r := TimeoutDown(ssls[ssl.value]);
        ssls := ssls[ssl.value := r];
        idle := r.timeout == 0;
      }
    }

    method ClearUdp()
      requires senders != []
      modifies `srcs, `udpSrcs, `senders
      ensures Udp() == U.Clear(old(Udp()))
    {
      udpSrcs := map[];
      srcs := map[];
      PostToSender(U.DelPeer(0));
    }

    /** The body of the timer's loop. */
    method TickBody() returns (ghost order: seq<U.Client>)
      requires Valid()
      modifies this
      ensures U.ExpiryOrder(TickSources(old(View())), order)
      ensures View() == TimerBody(old(View()), order)
    {
      hide Endpoints.TickRelays, U.Expire, Endpoints.StopManager;
      order := [];
      var idle := SslTimedOut();
      if idle && role == RemoteServer {
        StopManager();
      } else {
        if idle {
          ClearUdp();
        }
        order := TickSrcs();
        TickRelays();
      }
    }

    /** From the end of one wait to the start of the next, or to the end of the
        coroutine: the loop looks at _state before it waits. */
    method Tick() returns (ghost order: seq<U.Client>)
      requires Valid()
      modifies this
      ensures U.ExpiryOrder(TickSources(old(View())), order)
      ensures View() == TimerTurn(old(View()), order)
    {
      hide TimerBody, TickSources;
      order := TickBody();
      timing := running;
    }

    // ------------------------------------------------------------ add_request

    method PostToSsl(k: nat, f: Frame)
      requires k < |ssls|
      modifies `ssls
      ensures View() == PostSsl(old(View()), k, f)
    {
      ssls := ssls[k := Post(ssls[k], Send(Load(Ssl, f)))];
    }

    /** What a stopped connection misses, for the record. */
    method Refused(f: Frame)
      requires SslOk(View())
      modifies `ssls
      ensures View() == RefuseSsl(old(View()), f)
    {
      if ssl.Some? {
        ssls := ssls[ssl.value := Refuse(ssls[ssl.value], Load(Ssl, f))];
      }
    }

    method AddRequest(f: Frame)
      requires Valid()
      modifies `objs, `relays, `running, `ssl, `ssls
      ensures View() == Endpoints.AddRequest(old(View()), f)
    {
      if ssl.None? || ssls[ssl.value].state == Stop {
        if role == RemoteServer {
          Refused(f);
          StopManager();
          return;
        }
        ssl := Some(|ssls|);
        ssls := ssls + [Fresh(Ssl, true)];
      }
      PostToSsl(ssl.value, f);
    }

    /** A client that has no session gets the next number. */
    method OpenUdpSession(src: U.Client) returns (s: nat)
      requires senders != [] && U.SessionOf(Udp(), src) == 0
      modifies `session, `udpSrcs, `senders, `owners
      ensures Udp().(srcs := srcs[src := U.Src(s, TIMEOUT)]) == U.FromClient(old(Udp()), src)
    {
      session := session + 1;
      s := session;
      if senders[|senders| - 1].stopped {
        StartLocalUdp();
      }
      PostToSender(U.AddPeer(s, src));
      if s !in udpSrcs {
        udpSrcs := udpSrcs[s := src];
      }
      owners := owners[s := src];
    }

    /** send_udp_data. */
    method SendUdpData(src: U.Client, data: seq<byte>)
      requires Valid()
      modifies this
      ensures View() == Endpoints.SendUdpData(old(View()), src, data)
    {
      var s := if src in srcs then srcs[src].session else 0;
      if s == 0 {
        s := OpenUdpSession(src);
      }
      srcs := srcs[src := U.Src(s, TIMEOUT)];
      AddRequest(Frame(s, DataUdp, data));
    }

    /** add_local_raw_tcp. */
    method AddLocalRawTcp()
      modifies this
      ensures View() == AddLocalTcp(old(View()))
    {
      var s := session;
      session := session + 1;
      if s in relays {
        return;
      }
      relays := relays[s := Some(|objs|)];
      objs := objs + [Obj(s, Fresh(RawTcp, false), NotStarted, false, [], None, [], [])];
    }

    // ----------------------------------------------------------- add_response

    method AddRemoteRawTcp(s: nat, d: A.Dest)
      modifies `objs, `relays
      ensures View() == AddRawTcp(old(View()), s, d)
    {
      relays := relays[s := Some(|objs|)];
      objs := objs + [Obj(s, Fresh(RawTcp, role == RemoteServer), NotStarted, false, [], Some(d), [], [])];
    }

    method AddRemoteRawUdp(s: nat)
      modifies `objs, `relays
      ensures View() == AddRawUdp(old(View()), s)
    {
      relays := relays[s := Some(|objs|)];
      objs := objs + [Obj(s, Fresh(RawUdp, false), Reading, false, [], None, [], [])];
    }

    method SendTo(i: nat, f: Frame)
      requires i < |objs|
      modifies `objs
      ensures View() == SendObj(old(View()), i, f)
    {
      PostTo(i, Send(Load(objs[i].relay.kind, f)));
    }

    /** operator[]: a number without an entry gets a null one. */
    method EntryOf(s: nat) returns (v: Option<nat>)
      modifies `relays
      ensures v == Lookup(old(View()), s) && relays == old(relays)[s := v]
    {
      if s !in relays {
        relays := relays[s := None];
      }
      v := relays[s];
    }

    method RemoteServerSendUdp(f: Frame)
      requires TableOk(View())
      modifies `objs, `relays
      ensures View() == RemoteSendUdp(old(View()), f)
    {
      ghost var before := relays;
      var v := EntryOf(f.session);
      if v.None? || objs[v.value].relay.state == Stop {
        v := Some(|objs|);
        assert relays[f.session := v] == before[f.session := v];
        AddRemoteRawUdp(f.session);
      } else {
        assert relays == before;
      }
      SendTo(v.value, f);
    }

    method RemoteServerStartTcp(f: Frame)
      requires TableOk(View()) && |f.data| <= READ_BUFFER_SIZE
      modifies `objs, `relays, `faulted
      ensures View() == StartRemoteTcp(old(View()), f)
    {
      ghost var before := relays;
      var v := EntryOf(f.session);
      if v.Some? {
        PostTo(v.value, Halt);
      }
      match DestOf(f.data)
      case Ok(d) =>
        assert relays[f.session := Some(|objs|)] == before[f.session := Some(|objs|)];
        AddRemoteRawTcp(f.session, d);
      case Err(_) =>
        faulted := true;
    }

    method LocalTransparentSendUdp(f: Frame)
      requires senders != []
      modifies `senders, `srcs, `udpSrcs
      ensures Udp() == U.ToClient(old(Udp()), f)
    {
      if senders[|senders| - 1].stopped {
        StartLocalUdp();
      }
      PostToSender(U.Out(f));
      if f.session !in udpSrcs {
        udpSrcs := udpSrcs[f.session := U.Anyone];
      }
      var c := udpSrcs[f.session];
      assert udpSrcs[f.session := c] == udpSrcs;
      var s := if c in srcs then srcs[c].session else 0;
      srcs := srcs[c := U.Src(s, TIMEOUT)];
    }

    method OnData(f: Frame)
      requires Valid()
      modifies this
      ensures View() == OnDataTcp(old(View()), f)
    {
      var s := f.session;
      if s in relays {
        if relays[s].None? {
          faulted := true;
        } else if objs[relays[s].value].relay.state == Stop {
          relays := relays - {s};
          AddRequest(StopFrame(s));
        } else {
          SendTo(relays[s].value, f);
        }
      }
    }

    method OnStop(f: Frame)
      requires TableOk(View())
      modifies `objs, `relays, `faulted
      ensures View() == OnStopTcp(old(View()), f)
    {
      var s := f.session;
      if s in relays {
        if relays[s].None? {
          faulted := true;
        } else {
          PostTo(relays[s].value, Halt);
          relays := relays - {s};
        }
      }
    }

    method AddResponse(f: Frame)
      requires Valid() && |f.data| <= READ_BUFFER_SIZE
      modifies this
      ensures View() == Endpoints.AddResponse(old(View()), f)
    {
      handled := handled + [f];
      match f.cmd
      case DataTcp => OnData(f);
      case DataUdp =>
        if role == LocalTransparent {
          LocalTransparentSendUdp(f);
        } else if role == RemoteServer {
          RemoteServerSendUdp(f);
        }
      case StartTcp => RemoteServerStartTcp(f);
      case StopTcp => OnStop(f);
      case StopUdp =>
      case Unknown(_) =>
    }
  }
}
