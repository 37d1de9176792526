/** Every handler and every step of one end keeps its invariant. */
module EndpointSteps {
  import opened Bytes
  import opened RelayData
  import opened RelayQueue
  import opened SslReader
  import opened Streams
  import opened Endpoints
  import opened EndpointInv
  import U = UdpTables

  /** What may arrive: a START_TCP for a number not seen before, no UDP data
      under the number of a TCP relay. */
  ghost predicate Expected(e: Endpoint, f: Frame) {
    && WellFormed(f)
    && (e.role == RemoteServer ==> e.ssl.Some?)
    && (f.cmd == DataUdp && e.role == RemoteServer ==> NoTcp(e, f.session))
    && (f.cmd == StartTcp ==> e.role == RemoteServer && NoTcp(e, f.session) && Stream(e.handled, f.session) == [])
  }

  /** The 32-bit counter does not wrap. */
  predicate Fits(e: Endpoint, st: Endpoints.Step) {
    && (st == AcceptTcp ==> e.udp.session < Pow256(WORD))
    && (st.AcceptUdp? ==> e.udp.session + 1 < Pow256(WORD))
  }

  /** No outgoing TLS connection completes its dial after dropping a frame. */
  predicate SslClean(e: Endpoint, st: Endpoints.Step) {
    st.SslStep? && st.k < |e.ssls| ==> Clean(e.ssls[st.k], st.st)
  }

  // ------------------------------------------------------- one more response

  /** An object whose handled data did not change. */
  lemma ObjOkHandled(e: Endpoint, e': Endpoint, i: nat, f: Frame)
    requires i < |e.objs| && i < |e'.objs| && ObjOk(e, i, [])
    requires e'.role == e.role && e'.ssls == e.ssls && e'.handled == e.handled + [f]
    requires e'.objs[i] == e.objs[i] && RelayOk(e'.objs[i].relay, InTable(e', i))
    requires InTable(e', i) ==> InTable(e, i)
    requires Tcp(e.objs[i]) && InTable(e', i) ==> !DataOf(e.objs[i].session, f)
    ensures ObjOk(e', i, [])
  {
    DatasAppend(e.handled, f, e.objs[i].session);
    StreamAppend(e.handled, f, e.objs[i].session);
  }

  /** Only the history of handled frames, and possibly the table, changed. */
  lemma HandledChange(e: Endpoint, e': Endpoint, f: Frame)
    requires EInv(e, []) && WellFormed(f)
    requires e' == e.(handled := e.handled + [f], relays := e'.relays)
    requires forall s | s in e'.relays :: s in e.relays && e'.relays[s] == e.relays[s]
    requires forall i | 0 <= i < |e.objs| ::
               && RelayOk(e.objs[i].relay, InTable(e', i))
               && (Tcp(e.objs[i]) && InTable(e', i) ==> !DataOf(e.objs[i].session, f))
    ensures EInv(e', [])
  {
    NoTcpSame(e, e');
    forall i | 0 <= i < |e'.objs|
      ensures ObjOk(e', i, [])
    {
      assert ObjOk(e, i, []);
      ObjOkHandled(e, e', i, f);
    }
  }

  lemma NotDataKeeps(e: Endpoint, f: Frame)
    requires EInv(e, []) && WellFormed(f) && f.cmd != DataTcp
    ensures EInv(e.(handled := e.handled + [f]), [])
  {
    var e' := e.(handled := e.handled + [f]);
    forall i | 0 <= i < |e.objs|
      ensures RelayOk(e.objs[i].relay, InTable(e', i))
    {
      assert ObjOk(e, i, []);
    }
    HandledChange(e, e', f);
  }

  /** DATA_TCP for a session that is not in the table. */
  lemma UnknownDataKeeps(e: Endpoint, f: Frame)
    requires EInv(e, []) && WellFormed(f) && f.cmd == DataTcp && f.session !in e.relays
    ensures EInv(e.(handled := e.handled + [f]), [])
  {
    var e' := e.(handled := e.handled + [f]);
    forall i | 0 <= i < |e.objs|
      ensures RelayOk(e.objs[i].relay, InTable(e', i))
      ensures Tcp(e.objs[i]) && InTable(e', i) ==> !DataOf(e.objs[i].session, f)
    {
      assert ObjOk(e, i, []);
    }
    HandledChange(e, e', f);
  }

  /** DATA_TCP for a relay that has stopped: the entry goes. */
  lemma StoppedDataKeeps(e: Endpoint, f: Frame)
    requires EInv(e, []) && WellFormed(f) && f.cmd == DataTcp && f.session in e.relays
    requires e.objs[e.relays[f.session].value].relay.state == Stop
    ensures EInv(e.(handled := e.handled + [f], relays := e.relays - {f.session}), [])
  {
    hide TcpOk, OutboxOk, Distinct, NoStray;
    var e' := e.(handled := e.handled + [f], relays := e.relays - {f.session});
    forall i | 0 <= i < |e.objs|
      ensures RelayOk(e.objs[i].relay, InTable(e', i))
      ensures Tcp(e.objs[i]) && InTable(e', i) ==> !DataOf(e.objs[i].session, f)
    {
      assert ObjOk(e, i, []);
      if InTable(e, i) && e.objs[i].session == f.session {
        LeaveOk(e.objs[i].relay, true);
      }
    }
    HandledChange(e, e', f);
  }

  lemma ServeOne(o: Obj, f: Frame, datas: seq<Frame>)
    requires Served(o, true, datas)
    ensures Served(o.(relay := Post(o.relay, Send(Load(o.relay.kind, f)))), true, datas + [f])
  {
    var b := Load(o.relay.kind, f);
    assert Frames(o.relay.offered + [b]) == Frames(o.relay.offered) + [f];
  }

  /** The relay that gets the frame. */
  lemma SendObjOk(e: Endpoint, e': Endpoint, f: Frame, v: nat)
    requires v < |e.objs| && ObjOk(e, v, []) && InTable(e, v)
    requires Tcp(e.objs[v]) ==> DataOf(e.objs[v].session, f)
    requires e' == SendObj(e.(handled := e.handled + [f]), v, f)
    ensures ObjOk(e', v, [])
  {
    SendOk(e.objs[v].relay, f);
    if Tcp(e.objs[v]) {
      DatasAppend(e.handled, f, e.objs[v].session);
      StreamAppend(e.handled, f, e.objs[v].session);
      ServeOne(e.objs[v], f, Datas(e.handled, e.objs[v].session));
    }
  }

  /** A frame for a relay in the table; for a TCP relay it is its data. */
  lemma SendKeeps(e: Endpoint, f: Frame, v: nat)
    requires EInv(e, []) && WellFormed(f) && v < |e.objs| && InTable(e, v)
    requires Tcp(e.objs[v]) ==> DataOf(e.objs[v].session, f)
    requires forall i | 0 <= i < |e.objs| && i != v && Tcp(e.objs[i]) && InTable(e, i) :: !DataOf(e.objs[i].session, f)
    ensures EInv(SendObj(e.(handled := e.handled + [f]), v, f), [])
  {
    var e' := SendObj(e.(handled := e.handled + [f]), v, f);
    forall i | 0 <= i < |e'.objs|
      ensures ObjOk(e', i, [])
    {
      assert ObjOk(e, i, []);
      if i == v {
        SendObjOk(e, e', f, v);
      } else {
        ObjOkHandled(e, e', i, f);
      }
    }
    Assemble(e, e', []);
  }

  lemma OnDataTcpKeeps(e: Endpoint, f: Frame)
    requires EInv(e, []) && Expected(e, f) && f.cmd == DataTcp
    ensures TableOk(e) && SslOk(e) && EInv(AddResponse(e, f), [])
  {
    EInvOks(e, []);
    var s := f.session;
    if s !in e.relays {
      UnknownDataKeeps(e, f);
    } else if e.objs[e.relays[s].value].relay.state == Stop {
      StoppedDataKeeps(e, f);
      var e1 := e.(handled := e.handled + [f], relays := e.relays - {s});
      assert ObjOk(e, e.relays[s].value, []);
      PendIrrelevant(e1, StopFrame(s));
      AddRequestKeeps(e1, StopFrame(s));
    } else {
      SendKeeps(e, f, e.relays[s].value);
    }
  }

  /** The relay at i, if it is in the table, is told to stop and leaves. */
  lemma HaltOneKeeps(e: Endpoint, s: nat)
    requires EInv(e, []) && s in e.relays
    ensures EInv(PostObj(e, e.relays[s].value, Halt).(relays := e.relays - {s}), [])
  {
    hide Distinct, NoStray;
    var v := e.relays[s].value;
    var e' := PostObj(e, v, Halt).(relays := e.relays - {s});
    forall i | 0 <= i < |e.objs|
      ensures RelayOk(e'.objs[i].relay, InTable(e', i))
    {
      assert ObjOk(e, i, []);
      if i == v {
        HaltOk(e.objs[v].relay, InTable(e, v));
      } else {
        assert InTable(e', i) <==> InTable(e, i);
      }
    }
    ObjsChange(e, e', []);
  }

  // ------------------------------------------------------------- new relays

  lemma AddObjOther(e: Endpoint, e': Endpoint, i: nat)
    requires EInv(e, []) && i < |e.objs|
    requires e' == e.(objs := e'.objs, relays := e'.relays) && |e'.objs| == |e.objs| + 1 && e'.objs[..|e.objs|] == e.objs
    requires InTable(e', i) <==> InTable(e, i)
    ensures ObjOk(e', i, [])
  {
    assert ObjOk(e, i, []);
    assert e'.objs[i] == e.objs[i];
  }

  function WithObj(e: Endpoint, o: Obj): Endpoint {
    e.(objs := e.objs + [o], relays := e.relays[o.session := Some(|e.objs|)])
  }

  lemma AddObjStray(e: Endpoint, o: Obj)
    requires NoStray(e, [])
    ensures NoStray(WithObj(e, o), [])
  {
    var e' := WithObj(e, o);
    forall s: nat | NoTcp(e', s)
      ensures Stream(Outgoing(e'.ssls) + [], s) == []
    {
      forall i | 0 <= i < |e.objs|
        ensures Tcp(e.objs[i]) ==> e.objs[i].session != s
      {
        assert e'.objs[i] == e.objs[i];
      }
      assert NoTcp(e, s);
    }
  }

  lemma AddObjTable(e: Endpoint, o: Obj)
    requires TableInv(e)
    ensures TableInv(WithObj(e, o))
  {
    var e' := WithObj(e, o);
    forall s | s in e'.relays
      ensures e'.relays[s].Some? && e'.relays[s].value < |e'.objs| && e'.objs[e'.relays[s].value].session == s
    {
      if s != o.session {
        assert e'.relays[s] == e.relays[s];
        assert e'.objs[e.relays[s].value] == e.objs[e.relays[s].value];
      }
    }
  }

  /** A new relay under a number that is free. */
  lemma AddObjKeeps(e: Endpoint, o: Obj)
    requires EInv(e, []) && o.session !in e.relays
    requires RelayOk(o.relay, true) && OutboxOk(o)
    requires e.role != RemoteServer ==> o.session < e.udp.session && Tcp(o)
    requires Tcp(o) ==> o.relay.dials == (e.role == RemoteServer)
    requires Tcp(o) ==> NoTcp(e, o.session) && TcpOk(o, true, e.role == RemoteServer, Outgoing(e.ssls), e.handled)
    ensures EInv(WithObj(e, o), [])
  {
    var e' := WithObj(e, o);
    assert Outgoing(e.ssls) + [] == Outgoing(e.ssls);
    forall i | 0 <= i < |e'.objs|
      ensures ObjOk(e', i, [])
    {
      if i < |e.objs| {
        AddObjOther(e, e', i);
      }
    }
    AddObjStray(e, o);
    AddObjTable(e, o);
    AddObjDistinct(e, e', o);
    AddObjLocal(e, o);
  }

  lemma AddObjLocal(e: Endpoint, o: Obj)
    requires LocalOnly(e, []) && Numbered(e)
    requires e.role != RemoteServer ==> o.session < e.udp.session && Tcp(o)
    ensures LocalOnly(WithObj(e, o), []) && Numbered(WithObj(e, o))
  {
    var e' := WithObj(e, o);
    assert forall i | 0 <= i < |e'.objs| :: e'.objs[i] == if i < |e.objs| then e.objs[i] else o;
  }

  lemma AddObjDistinct(e: Endpoint, e': Endpoint, o: Obj)
    requires Distinct(e) && e'.objs == e.objs + [o] && (Tcp(o) ==> NoTcp(e, o.session))
    ensures Distinct(e')
  {
    forall i, j | 0 <= i < j < |e'.objs| && Tcp(e'.objs[i]) && Tcp(e'.objs[j])
      ensures e'.objs[i].session != e'.objs[j].session
    {
      assert e'.objs[i] == e.objs[i];
      if j < |e.objs| {
        assert e'.objs[j] == e.objs[j];
      }
    }
  }

  /** What a relay that is overwritten in the table looks like from here: first
      its entry goes, then the new one comes. */
  lemma Overwrite(e: Endpoint, s: nat, v: Option<nat>)
    ensures (e.relays - {s})[s := v] == e.relays[s := v]
  {
  }

  lemma FreshOk(kind: Kind, dials: bool)
    requires kind in {RawTcp, RawUdp}
    ensures RelayOk(Fresh(kind, dials), true)
  {
    InitFresh(kind, dials);
  }

  /** The entry of s, if there is one, goes; its relay is told to stop. */
  function Evicted(h: Endpoint, s: nat): Endpoint
    requires TableInv(h)
  {
    if s in h.relays then PostObj(h, h.relays[s].value, Halt).(relays := h.relays - {s}) else h
  }

  lemma EvictedKeeps(h: Endpoint, s: nat)
    requires EInv(h, [])
    ensures EInv(Evicted(h, s), []) && s !in Evicted(h, s).relays
    ensures NoTcp(h, s) ==> NoTcp(Evicted(h, s), s)
  {
    if s in h.relays {
      HaltOneKeeps(h, s);
      NoTcpSame(h, Evicted(h, s));
    }
  }

  lemma StartTcpKeeps(e: Endpoint, f: Frame)
    requires EInv(e, []) && Expected(e, f) && f.cmd == StartTcp
    ensures TableOk(e) && SslOk(e) && EInv(AddResponse(e, f), [])
    ensures AddResponse(e, f).ssls == e.ssls && AddResponse(e, f).ssl == e.ssl
  {
    EInvOks(e, []);
    var h := e.(handled := e.handled + [f]);
    NotDataKeeps(e, f);
    NoTcpSame(e, h);
    EvictedKeeps(h, f.session);
    StartNewKeeps(e, f, Evicted(h, f.session));
    StartTcpResult(e, f, h, Evicted(h, f.session), NewTcp(f));
  }

  function NewTcp(f: Frame): Obj
    requires WellFormed(f) && f.cmd == StartTcp
  {
    Obj(f.session, Fresh(RawTcp, true), NotStarted, false, [], Some(DestOf(f.data).dest), [], [])
  }

  lemma StartNewKeeps(e: Endpoint, f: Frame, g: Endpoint)
    requires EInv(e, []) && Expected(e, f) && f.cmd == StartTcp
    requires EInv(g, []) && g.handled == e.handled + [f] && g.ssls == e.ssls && g.role == e.role
    requires f.session !in g.relays && NoTcp(g, f.session)
    ensures EInv(WithObj(g, NewTcp(f)), [])
  {
    FreshOk(RawTcp, true);
    StartedTcpOk(e, f, g, NewTcp(f));
    AddObjKeeps(g, NewTcp(f));
  }

  lemma StartTcpResult(e: Endpoint, f: Frame, h: Endpoint, g: Endpoint, o: Obj)
    requires TableInv(e) && TableOk(e) && SslOk(e) && e.role == RemoteServer && WellFormed(f) && f.cmd == StartTcp
    requires h == e.(handled := e.handled + [f])
    requires TableInv(h) && g == Evicted(h, f.session)
    requires o == NewTcp(f)
    ensures WithObj(g, o) == AddResponse(e, f)
  {
    Overwrite(h, f.session, Some(|g.objs|));
  }

  lemma StartedTcpOk(e: Endpoint, f: Frame, g: Endpoint, o: Obj)
    requires EInv(e, []) && Expected(e, f) && f.cmd == StartTcp
    requires g.handled == e.handled + [f] && g.ssls == e.ssls && g.role == e.role
    requires o == NewTcp(f)
    ensures OutboxOk(o) && TcpOk(o, true, true, Outgoing(g.ssls), g.handled)
  {
    var s := f.session;
    StreamAppend(e.handled, f, s);
    DatasAppend(e.handled, f, s);
    DatasOfStream(e.handled, s);
    assert Outgoing(e.ssls) + [] == Outgoing(e.ssls);
    assert Stream(Outgoing(e.ssls), s) == [];
    assert Frames(o.relay.offered) == [];
  }

  lemma OnStopTcpKeeps(e: Endpoint, f: Frame)
    requires EInv(e, []) && Expected(e, f) && f.cmd == StopTcp
    ensures TableOk(e) && SslOk(e) && EInv(AddResponse(e, f), [])
  {
    EInvOks(e, []);
    NotDataKeeps(e, f);
    if f.session in e.relays {
      HaltOneKeeps(e.(handled := e.handled + [f]), f.session);
    }
  }

  /** A UDP frame for the UDP relay of its session. */
  lemma SendUdpObj(e: Endpoint, f: Frame, v: nat)
    requires v < |e.objs| && ObjOk(e, v, []) && InTable(e, v) && !Tcp(e.objs[v])
    ensures ObjOk(SendObj(e, v, f), v, [])
  {
    hide TcpOk;
    SendOk(e.objs[v].relay, f);
  }

  lemma SendUdpKeeps(e: Endpoint, f: Frame, v: nat)
    requires EInv(e, []) && v < |e.objs| && InTable(e, v) && !Tcp(e.objs[v])
    ensures EInv(SendObj(e, v, f), [])
  {
    hide Distinct, NoStray, TcpOk, RelayOk, OutboxOk;
    var e' := SendObj(e, v, f);
    forall i | 0 <= i < |e'.objs|
      ensures ObjOk(e', i, [])
    {
      assert ObjOk(e, i, []);
      if i == v {
        SendUdpObj(e, f, v);
      } else {
        assert e'.objs[i] == e.objs[i] && (InTable(e', i) <==> InTable(e, i));
      }
    }
    Assemble(e, e', []);
  }

  /** The entry of a stopped relay goes. */
  lemma DropStoppedKeeps(e: Endpoint, s: nat)
    requires EInv(e, []) && s in e.relays && e.objs[e.relays[s].value].relay.state == Stop
    ensures EInv(e.(relays := e.relays - {s}), [])
  {
    hide TcpOk, OutboxOk, Distinct, NoStray;
    var e' := e.(relays := e.relays - {s});
    forall i | 0 <= i < |e.objs|
      ensures RelayOk(e'.objs[i].relay, InTable(e', i))
    {
      assert ObjOk(e, i, []);
      if InTable(e, i) && e.objs[i].session == s {
        LeaveOk(e.objs[i].relay, true);
      }
    }
    ObjsChange(e, e', []);
  }

  lemma AddRawUdpKeeps(e: Endpoint, s: nat)
    requires EInv(e, []) && e.role == RemoteServer && s < Pow256(WORD)
    requires s in e.relays ==> e.objs[e.relays[s].value].relay.state == Stop
    ensures EInv(AddRawUdp(e, s), [])
  {
    var g := e.(relays := e.relays - {s});
    if s in e.relays {
      DropStoppedKeeps(e, s);
    } else {
      assert g.relays == e.relays;
    }
    var o := Obj(s, Fresh(RawUdp, false), Reading, false, [], None, [], []);
    FreshOk(RawUdp, false);
    AddObjKeeps(g, o);
    Overwrite(e, s, Some(|e.objs|));
    assert WithObj(g, o) == AddRawUdp(e, s);
  }

  lemma RemoteSendUdpKeeps(e: Endpoint, f: Frame)
    requires EInv(e, []) && e.role == RemoteServer && WellFormed(f) && NoTcp(e, f.session)
    ensures TableOk(e) && EInv(RemoteSendUdp(e, f), [])
  {
    hide ObjOk, Distinct, NoStray;
    EInvOks(e, []);
    var s := f.session;
    if s in e.relays && e.objs[e.relays[s].value].relay.state != Stop {
      SendUdpKeeps(e, f, e.relays[s].value);
    } else {
      AddRawUdpKeeps(e, s);
      SendUdpKeeps(AddRawUdp(e, s), f, |e.objs|);
    }
  }

  lemma ToClientOk(u: U.Udp, f: Frame)
    requires UdpOk(u)
    ensures UdpOk(U.ToClient(u, f)) && U.ToClient(u, f).session == u.session && U.ToClient(u, f).owners == u.owners
  {
  }

  lemma FromClientOk(u: U.Udp, src: U.Client)
    requires UdpOk(u)
    ensures var v := U.FromClient(u, src);
            && UdpOk(v) && u.session <= v.session <= u.session + 1
            && U.SessionOf(v, src) in v.owners
            && v.owners.Keys == u.owners.Keys + {U.SessionOf(v, src)}
  {
  }

  /** add_response keeps the invariant. */
  lemma AddResponseKeeps(e: Endpoint, f: Frame)
    requires EInv(e, []) && Expected(e, f)
    ensures TableOk(e) && SslOk(e) && EInv(AddResponse(e, f), [])
  {
    EInvOks(e, []);
    match f.cmd
    case DataTcp => OnDataTcpKeeps(e, f);
    case StartTcp => StartTcpKeeps(e, f);
    case StopTcp => OnStopTcpKeeps(e, f);
    case DataUdp =>
      NotDataKeeps(e, f);
      var h := e.(handled := e.handled + [f]);
      match e.role {
        case LocalServer =>
        case LocalTransparent =>
          ToClientOk(e.udp, f);
          UdpIrrelevant(h, U.ToClient(e.udp, f), []);
        case RemoteServer =>
          NoTcpSame(e, h);
          RemoteSendUdpKeeps(h, f);
      }
    case StopUdp => NotDataKeeps(e, f);
    case Unknown(_) =>
  }
}
