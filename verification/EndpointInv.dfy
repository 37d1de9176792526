/** What every step keeps true of one end of the proxy: its table, its relays,
    the conservation of each session's frames from the read loop to the TLS
    connection and from add_response to the relay. */
module EndpointInv {
  import opened Bytes
  import opened RelayData
  import opened RelayQueue
  import opened SslReader
  import opened Streams
  import opened Endpoints
  import U = UdpTables

  /** All frames offered to the TLS connections, oldest connection first. */
  function Outgoing(ssls: seq<Relay>): seq<Frame> {
    if ssls == [] then []
    else Outgoing(ssls[..|ssls| - 1]) + Frames(ssls[|ssls| - 1].offered)
  }

  ghost predicate TableInv(e: Endpoint) {
    forall s | s in e.relays :: e.relays[s].Some? && e.relays[s].value < |e.objs| && e.objs[e.relays[s].value].session == s
  }

  ghost predicate SslInv(e: Endpoint) {
    && e.ssl == (if e.ssls == [] then None else Some(|e.ssls| - 1))
    && forall k | 0 <= k < |e.ssls| :: SslRelayOk(e.ssls[k])
  }

  ghost predicate SslRelayOk(r: Relay) {
    Inv(r) && r.kind == Ssl && Sendable(r.offered)
  }

  ghost predicate RelayOk(r: Relay, inTable: bool) {
    && Inv(r) && r.kind in {RawTcp, RawUdp}
    && (forall j | 0 <= j < |r.offered| :: r.offered[j] == Load(r.kind, r.offered[j].frame))
    && (inTable || r.stopCalled)
    && (inTable ==> r.timeout >= 1)
    && (r.dials && !r.startDone ==> !r.late && (inTable ==> !r.stopCalled))
  }

  ghost predicate OutboxOk(o: Obj) {
    && o.session < Pow256(WORD)
    && (o.relay.dials && o.loop == Reading ==> o.relay.startDone)
    && forall j | 0 <= j < |o.outbox| ::
         && WellFormed(o.outbox[j]) && o.outbox[j].session == o.session
         && (if Tcp(o) then o.outbox[j].cmd in {StartTcp, DataTcp, StopTcp} else o.outbox[j].cmd == DataUdp)
  }

  /** What the read loop emitted: START_TCP first at a local end, then data. */
  ghost predicate Emits(o: Obj, remote: bool) {
    && (forall j | 0 <= j < |o.emitted| :: OfSession(o.session, o.emitted[j]) && WellFormed(o.emitted[j]))
    && Payload(Datas(o.emitted, o.session)) == o.input
    && (remote ==> forall j | 0 <= j < |o.emitted| :: o.emitted[j].cmd == DataTcp)
    && (!remote ==>
          && (o.loop == NotStarted ==> o.emitted == [])
          && (o.loop == Reading ==> o.emitted != [])
          && (o.emitted != [] ==> o.emitted[0].cmd == StartTcp && o.dest == Some(DestOf(o.emitted[0].data).dest))
          && forall j | 1 <= j < |o.emitted| :: o.emitted[j].cmd == DataTcp)
  }

  /** Conservation towards the TLS connections. */
  ghost predicate Conserved(o: Obj, posted: seq<Frame>) {
    posted + Stream(o.outbox, o.session) == o.emitted
  }

  /** Conservation from add_response: exactly what came while in the table. */
  ghost predicate Served(o: Obj, inTable: bool, datas: seq<Frame>) {
    Frames(o.relay.offered) <= datas && (inTable ==> Frames(o.relay.offered) == datas)
  }

  /** A remote relay goes back to the START_TCP that came first. */
  ghost predicate Started(o: Obj, stream: seq<Frame>) {
    && stream != [] && stream[0].cmd == StartTcp
    && WellFormed(stream[0]) && o.dest == Some(DestOf(stream[0].data).dest)
  }

  ghost predicate TcpOk(o: Obj, inTable: bool, remote: bool, posted: seq<Frame>, handled: seq<Frame>) {
    && Emits(o, remote)
    && Conserved(o, Stream(posted, o.session))
    && Served(o, inTable, Datas(handled, o.session))
    && (remote ==> Started(o, Stream(handled, o.session)))
  }

  ghost predicate ObjOk(e: Endpoint, i: nat, pend: seq<Frame>)
    requires i < |e.objs|
  {
    var o := e.objs[i];
    && RelayOk(o.relay, InTable(e, i))
    && OutboxOk(o)
    && (Tcp(o) ==> o.relay.dials == (e.role == RemoteServer))
    && (Tcp(o) ==> TcpOk(o, InTable(e, i), e.role == RemoteServer, Outgoing(e.ssls) + pend, e.handled))
  }

  ghost predicate NoTcp(e: Endpoint, s: nat) {
    forall i | 0 <= i < |e.objs| :: Tcp(e.objs[i]) ==> e.objs[i].session != s
  }

  ghost predicate Distinct(e: Endpoint) {
    forall i, j | 0 <= i < j < |e.objs| :: Tcp(e.objs[i]) && Tcp(e.objs[j]) ==> e.objs[i].session != e.objs[j].session
  }

  /** No stream frames of a session that has no TCP relay. */
  ghost predicate NoStray(e: Endpoint, pend: seq<Frame>) {
    forall s: nat | NoTcp(e, s) :: Stream(Outgoing(e.ssls) + pend, s) == []
  }

  /** Every UDP session was numbered by this end's counter, or is the 0 of an
      entry created by a reply to an unknown session. */
  ghost predicate UdpOk(u: U.Udp) {
    && u.senders != []
    && (forall s | s in u.owners :: s <= u.session)
    && (forall c | c in u.srcs :: u.srcs[c].session == 0 || u.srcs[c].session in u.owners)
  }

  /** A local end has handed out only numbers below its counter. */
  ghost predicate Numbered(e: Endpoint) {
    e.role != RemoteServer ==> forall i | 0 <= i < |e.objs| :: e.objs[i].session < e.udp.session
  }

  /** A local end has TCP relays only, and its UDP frames carry numbers that it
      gave to clients. */
  ghost predicate LocalOnly(e: Endpoint, pend: seq<Frame>) {
    e.role != RemoteServer ==>
      && (forall i | 0 <= i < |e.objs| :: Tcp(e.objs[i]))
      && UdpOwned(Outgoing(e.ssls) + pend, e.udp.owners.Keys)
  }

  ghost predicate UdpOwned(fs: seq<Frame>, owned: set<nat>) {
    forall j | 0 <= j < |fs| :: fs[j].cmd == DataUdp ==> fs[j].session in owned
  }

  /** `pend` is a frame on its way from a relay to the TLS connection, inside
      one handler. */
  ghost predicate EInv(e: Endpoint, pend: seq<Frame>) {
    && !e.faulted && UdpOk(e.udp) && Numbered(e)
    && TableInv(e) && SslInv(e) && Distinct(e) && NoStray(e, pend)
    && LocalOnly(e, pend)
    && (forall i | 0 <= i < |e.objs| :: ObjOk(e, i, pend))
    && (forall j | 0 <= j < |e.handled| :: WellFormed(e.handled[j]))
  }

  lemma EInvOks(e: Endpoint, pend: seq<Frame>)
    requires EInv(e, pend)
    ensures TableOk(e) && SslOk(e)
  {
  }

  lemma EInvSsl(e: Endpoint, pend: seq<Frame>)
    requires EInv(e, pend)
    ensures SslInv(e) && forall k | 0 <= k < |e.ssls| :: SslRelayOk(e.ssls[k])
  {
  }

  lemma EInvNumbers(e: Endpoint, pend: seq<Frame>)
    requires EInv(e, pend)
    ensures Numbered(e) && UdpOk(e.udp)
  {
  }

  // ----------------------------------------------------------------- posting

  lemma {:induction false} OutgoingSame(a: seq<Relay>, b: seq<Relay>)
    requires |a| == |b| && forall k | 0 <= k < |a| :: a[k].offered == b[k].offered
    ensures Outgoing(a) == Outgoing(b)
  {
    if a != [] {
      OutgoingSame(a[..|a| - 1], b[..|b| - 1]);
    }
  }

  lemma OutgoingLast(ssls: seq<Relay>, r: Relay)
    requires ssls != []
    ensures Outgoing(ssls[|ssls| - 1 := r]) == Outgoing(ssls[..|ssls| - 1]) + Frames(r.offered)
  {
    var t := ssls[|ssls| - 1 := r];
    assert t[..|t| - 1] == ssls[..|ssls| - 1];
  }

  /** Offering a frame to the current connection appends it. */
  lemma OutgoingAppend(ssls: seq<Relay>, r: Relay, b: Buf)
    requires ssls != [] && r.offered == ssls[|ssls| - 1].offered + [b]
    ensures Outgoing(ssls[|ssls| - 1 := r]) == Outgoing(ssls) + [b.frame]
  {
    OutgoingLast(ssls, r);
    assert Frames(r.offered) == Frames(ssls[|ssls| - 1].offered) + [b.frame];
    Associative(Outgoing(ssls[..|ssls| - 1]), Frames(ssls[|ssls| - 1].offered), [b.frame]);
  }

  lemma OutgoingOpen(ssls: seq<Relay>, r: Relay)
    requires r.offered == []
    ensures Outgoing(ssls + [r]) == Outgoing(ssls)
  {
    assert (ssls + [r])[..|ssls|] == ssls;
    assert Frames(r.offered) == [];
  }

  /** Objects and table untouched, posted frames accounted for. */
  lemma SslChange(e: Endpoint, e': Endpoint, pend: seq<Frame>, pend': seq<Frame>)
    requires EInv(e, pend)
    requires e' == e.(ssl := e'.ssl, ssls := e'.ssls) && SslInv(e')
    requires Outgoing(e'.ssls) + pend' == Outgoing(e.ssls) + pend
    ensures EInv(e', pend')
  {
    forall i | 0 <= i < |e'.objs|
      ensures ObjOk(e', i, pend')
    {
      assert ObjOk(e, i, pend);
    }
    forall s: nat | NoTcp(e', s)
      ensures Stream(Outgoing(e'.ssls) + pend', s) == []
    {
      assert NoTcp(e, s);
    }
  }

  lemma PostOk(r: Relay, b: Buf)
    requires SslRelayOk(r) && WellFormed(b.frame) && b.bytes == Encode(b.frame)
    ensures SslRelayOk(Post(r, Send(b)))
  {
    PostKeepsInv(r, Send(b));
  }

  lemma RefuseOk(r: Relay, b: Buf)
    requires SslRelayOk(r) && r.state == Stop && WellFormed(b.frame) && b.bytes == Encode(b.frame)
    ensures SslRelayOk(Refuse(r, b))
  {
    RefuseKeepsInv(r, b);
  }

  lemma SslSet(e: Endpoint, k: nat, r: Relay)
    requires SslInv(e) && k < |e.ssls| && SslRelayOk(r)
    ensures SslInv(e.(ssls := e.ssls[k := r]))
  {
    var e' := e.(ssls := e.ssls[k := r]);
    forall j | 0 <= j < |e'.ssls|
      ensures SslRelayOk(e'.ssls[j])
    {
      assert j != k ==> e'.ssls[j] == e.ssls[j];
    }
  }

  /** One more frame offered to the current connection. */
  lemma OfferKeeps(e: Endpoint, b: Buf, r: Relay)
    requires EInv(e, [b.frame]) && e.ssls != [] && SslRelayOk(r)
    requires r.offered == e.ssls[|e.ssls| - 1].offered + [b]
    ensures EInv(e.(ssls := e.ssls[|e.ssls| - 1 := r]), [])
  {
    hide RelayOk, OutboxOk, TcpOk, SslRelayOk, NoStray, Distinct;
    var k := |e.ssls| - 1;
    SslSet(e, k, r);
    OutgoingAppend(e.ssls, r, b);
    SslChange(e, e.(ssls := e.ssls[k := r]), [b.frame], []);
  }

  lemma PostSslKeeps(e: Endpoint, f: Frame)
    requires EInv(e, [f]) && WellFormed(f) && e.ssl.Some?
    ensures EInv(PostSsl(e, e.ssl.value, f), [])
  {
    var k := e.ssl.value;
    assert k == |e.ssls| - 1 && SslRelayOk(e.ssls[k]);
    PostOk(e.ssls[k], Load(Ssl, f));
    OfferKeeps(e, Load(Ssl, f), Post(e.ssls[k], Send(Load(Ssl, f))));
  }

  lemma RefuseSslKeeps(e: Endpoint, f: Frame)
    requires EInv(e, [f]) && WellFormed(f) && e.ssl.Some? && e.ssls[e.ssl.value].state == Stop
    ensures EInv(RefuseSsl(e, f), [])
  {
    hide RelayOk, OutboxOk, TcpOk, NoStray, Distinct, Encode;
    var k := e.ssl.value;
    assert k == |e.ssls| - 1 && SslRelayOk(e.ssls[k]);
    RefuseOk(e.ssls[k], Load(Ssl, f));
    OfferKeeps(e, Load(Ssl, f), Refuse(e.ssls[k], Load(Ssl, f)));
  }

  lemma OpenSslKeeps(e: Endpoint, pend: seq<Frame>)
    requires EInv(e, pend)
    ensures EInv(OpenSsl(e), pend)
  {
    var e' := OpenSsl(e);
    FreshSslOk();
    forall j | 0 <= j < |e'.ssls|
      ensures SslRelayOk(e'.ssls[j])
    {
      assert j < |e.ssls| ==> e'.ssls[j] == e.ssls[j];
    }
    OutgoingOpen(e.ssls, Fresh(Ssl, true));
    SslChange(e, e', pend, pend);
  }

  lemma FreshSslOk()
    ensures SslRelayOk(Fresh(Ssl, true)) && SslRelayOk(Fresh(Ssl, false))
  {
    InitFresh(Ssl, true);
    InitFresh(Ssl, false);
  }

  // ----------------------------------------------------------- relay messages

  /** stop_relay posted to a relay that leaves the table. */
  lemma HaltOk(r: Relay, inTable: bool)
    requires RelayOk(r, inTable)
    ensures RelayOk(Post(r, Halt), false)
  {
    PostKeepsInv(r, Halt);
  }

  lemma LeaveOk(r: Relay, inTable: bool)
    requires RelayOk(r, inTable) && r.stopCalled
    ensures RelayOk(r, false)
  {
  }

  lemma SendOk(r: Relay, f: Frame)
    requires RelayOk(r, true)
    ensures RelayOk(Post(r, Send(Load(r.kind, f))), true)
  {
    PostKeepsInv(r, Send(Load(r.kind, f)));
  }

  lemma TickOk(r: Relay)
    requires RelayOk(r, true)
    ensures RelayOk(TimeoutDown(r), TimeoutDown(r).timeout != 0)
    ensures TimeoutDown(r).offered == r.offered && TimeoutDown(r).kind == r.kind && TimeoutDown(r).dials == r.dials
    ensures TimeoutDown(r).startDone == r.startDone
  {
    TimeoutKeepsInv(r);
    if r.timeout == 1 {
    } else {
    }
  }

  /** An object of which only the relay has changed, and that possibly left the
      table. */
  lemma ObjOkAfter(e: Endpoint, e': Endpoint, i: nat, pend: seq<Frame>)
    requires i < |e.objs| && i < |e'.objs| && ObjOk(e, i, pend)
    requires e'.role == e.role && e'.ssls == e.ssls && e'.handled == e.handled
    requires e'.objs[i] == e.objs[i].(relay := e'.objs[i].relay)
    requires RelayOk(e'.objs[i].relay, InTable(e', i)) && e'.objs[i].relay.offered == e.objs[i].relay.offered
    requires e'.objs[i].relay.kind == e.objs[i].relay.kind && e'.objs[i].relay.dials == e.objs[i].relay.dials
    requires e.objs[i].relay.startDone ==> e'.objs[i].relay.startDone
    requires InTable(e', i) ==> InTable(e, i)
    ensures ObjOk(e', i, pend)
  {
  }

  lemma NoTcpSame(e: Endpoint, e': Endpoint)
    requires |e'.objs| == |e.objs|
    requires forall i | 0 <= i < |e.objs| ::
               e'.objs[i].session == e.objs[i].session && e'.objs[i].relay.kind == e.objs[i].relay.kind
    ensures forall s: nat :: NoTcp(e', s) <==> NoTcp(e, s)
    ensures Distinct(e) ==> Distinct(e')
  {
    forall s: nat
      ensures NoTcp(e', s) <==> NoTcp(e, s)
    {
      if NoTcp(e, s) {
        forall i | 0 <= i < |e'.objs|
          ensures Tcp(e'.objs[i]) ==> e'.objs[i].session != s
        {
          assert Tcp(e.objs[i]) ==> e.objs[i].session != s;
        }
      }
      if NoTcp(e', s) {
        forall i | 0 <= i < |e.objs|
          ensures Tcp(e.objs[i]) ==> e.objs[i].session != s
        {
          assert Tcp(e'.objs[i]) ==> e'.objs[i].session != s;
        }
      }
    }
    if Distinct(e) {
      forall i, j | 0 <= i < j < |e'.objs| && Tcp(e'.objs[i]) && Tcp(e'.objs[j])
        ensures e'.objs[i].session != e'.objs[j].session
      {
        assert Tcp(e.objs[i]) && Tcp(e.objs[j]);
      }
    }
  }

  lemma TableShrinks(e: Endpoint, e': Endpoint)
    requires TableInv(e) && |e'.objs| == |e.objs|
    requires forall s | s in e'.relays :: s in e.relays && e'.relays[s] == e.relays[s]
    requires forall i | 0 <= i < |e.objs| :: e'.objs[i].session == e.objs[i].session
    ensures TableInv(e')
  {
    forall s | s in e'.relays
      ensures e'.relays[s].Some? && e'.relays[s].value < |e'.objs| && e'.objs[e'.relays[s].value].session == s
    {
      var v := e.relays[s].value;
      assert e'.objs[v].session == e.objs[v].session;
    }
  }

  /** The same objects in new states, each of them in order. */
  lemma Assemble(e: Endpoint, e': Endpoint, pend: seq<Frame>)
    requires EInv(e, pend)
    requires e'.role == e.role && e'.ssl == e.ssl && e'.ssls == e.ssls && e'.udp == e.udp && !e'.faulted
    requires |e'.objs| == |e.objs|
    requires forall s | s in e'.relays :: s in e.relays && e'.relays[s] == e.relays[s]
    requires forall i | 0 <= i < |e.objs| ::
               e'.objs[i].session == e.objs[i].session && e'.objs[i].relay.kind == e.objs[i].relay.kind
    requires forall i | 0 <= i < |e'.objs| :: ObjOk(e', i, pend)
    requires forall j | 0 <= j < |e'.handled| :: WellFormed(e'.handled[j])
    ensures EInv(e', pend)
  {
    NoTcpSame(e, e');
    TableShrinks(e, e');
  }

  /** Relays change, the table shrinks, nothing is posted to the connection. */
  lemma ObjsChange(e: Endpoint, e': Endpoint, pend: seq<Frame>)
    requires EInv(e, pend)
    requires e' == e.(objs := e'.objs, relays := e'.relays, running := e'.running) && |e'.objs| == |e.objs|
    requires forall s | s in e'.relays :: s in e.relays && e'.relays[s] == e.relays[s]
    requires forall i | 0 <= i < |e.objs| :: e'.objs[i] == e.objs[i].(relay := e'.objs[i].relay)
    requires forall i | 0 <= i < |e.objs| ::
               && RelayOk(e'.objs[i].relay, InTable(e', i)) && e'.objs[i].relay.offered == e.objs[i].relay.offered
               && e'.objs[i].relay.kind == e.objs[i].relay.kind && e'.objs[i].relay.dials == e.objs[i].relay.dials
               && e'.objs[i].relay.startDone == e.objs[i].relay.startDone
    ensures EInv(e', pend)
  {
    forall i | 0 <= i < |e'.objs|
      ensures ObjOk(e', i, pend)
    {
      assert ObjOk(e, i, pend);
      ObjOkAfter(e, e', i, pend);
    }
    Assemble(e, e', pend);
  }

  lemma StopManagerKeeps(e: Endpoint, pend: seq<Frame>)
    requires EInv(e, pend)
    ensures EInv(StopManager(e), pend)
  {
    var e' := StopManager(e);
    forall i | 0 <= i < |e.objs|
      ensures RelayOk(e'.objs[i].relay, InTable(e', i))
    {
      assert ObjOk(e, i, pend);
      HaltOk(e.objs[i].relay, InTable(e, i));
    }
    ObjsChange(e, e', pend);
  }

  lemma AddRequestKeeps(e: Endpoint, f: Frame)
    requires EInv(e, [f]) && WellFormed(f) && (e.role == RemoteServer ==> e.ssl.Some?)
    ensures SslOk(e) && EInv(AddRequest(e, f), [])
  {
    EInvOks(e, [f]);
    if !SslDown(e) {
      PostSslKeeps(e, f);
    } else if e.role == RemoteServer {
      RefuseSslKeeps(e, f);
      StopManagerKeeps(RefuseSsl(e, f), []);
    } else {
      OpenSslKeeps(e, [f]);
      PostSslKeeps(OpenSsl(e), f);
    }
  }

  lemma TickObj(e: Endpoint, i: nat)
    requires TableInv(e) && TableOk(e) && i < |e.objs| && RelayOk(e.objs[i].relay, InTable(e, i))
    ensures var r := e.objs[i].relay;
            var r' := TickRelays(e).objs[i].relay;
            && RelayOk(r', InTable(TickRelays(e), i))
            && r'.offered == r.offered && r'.kind == r.kind && r'.dials == r.dials && r'.startDone == r.startDone
  {
    if InTable(e, i) {
      TickOk(e.objs[i].relay);
      assert InTable(TickRelays(e), i) <==> TimeoutDown(e.objs[i].relay).timeout != 0;
    }
  }

  lemma TickRelaysKeeps(e: Endpoint, pend: seq<Frame>)
    requires EInv(e, pend)
    ensures TableOk(e) && EInv(TickRelays(e), pend)
  {
    EInvOks(e, pend);
    var e' := TickRelays(e);
    forall i | 0 <= i < |e.objs|
      ensures RelayOk(e'.objs[i].relay, InTable(e', i)) && e'.objs[i].relay.offered == e.objs[i].relay.offered
      ensures e'.objs[i].relay.kind == e.objs[i].relay.kind && e'.objs[i].relay.dials == e.objs[i].relay.dials
      ensures e'.objs[i].relay.startDone == e.objs[i].relay.startDone
    {
      assert ObjOk(e, i, pend);
      TickObj(e, i);
    }
    ObjsChange(e, e', pend);
  }

  /** Nothing this module talks about depends on the UDP tables. */
  lemma UdpIrrelevant(e: Endpoint, u: U.Udp, pend: seq<Frame>)
    requires EInv(e, pend) && UdpOk(u) && u.session >= e.udp.session && u.owners.Keys >= e.udp.owners.Keys
    ensures EInv(e.(udp := u), pend)
  {
    var e' := e.(udp := u);
    NoTcpSame(e, e');
    forall i | 0 <= i < |e'.objs|
      ensures ObjOk(e', i, pend)
    {
      assert ObjOk(e, i, pend);
    }
  }

  lemma TimingIrrelevant(e: Endpoint, b: bool, pend: seq<Frame>)
    requires EInv(e, pend)
    ensures EInv(e.(timing := b), pend)
  {
    hide RelayOk, OutboxOk, TcpOk;
    var e' := e.(timing := b);
    NoTcpSame(e, e');
    forall i | 0 <= i < |e'.objs|
      ensures ObjOk(e', i, pend)
    {
      assert ObjOk(e, i, pend);
      assert InTable(e', i) <==> InTable(e, i);
    }
  }

  /** Frames that belong to no TCP stream do not matter to conservation. */
  lemma PendIrrelevant(e: Endpoint, f: Frame)
    requires EInv(e, []) && f.cmd !in {StartTcp, DataTcp}
    requires f.cmd == DataUdp && e.role != RemoteServer ==> f.session in e.udp.owners
    ensures EInv(e, [f])
  {
    assert Outgoing(e.ssls) + [] == Outgoing(e.ssls);
    forall s: nat
      ensures Stream(Outgoing(e.ssls) + [f], s) == Stream(Outgoing(e.ssls), s)
    {
      StreamAppend(Outgoing(e.ssls), f, s);
    }
    forall i | 0 <= i < |e.objs|
      ensures ObjOk(e, i, [f])
    {
      assert ObjOk(e, i, []);
    }
  }
}
