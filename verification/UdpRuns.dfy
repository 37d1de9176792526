/** Replies to UDP clients in runs of the whole system. */
module UdpRuns {
  import opened RelayData
  import opened Endpoints
  import opened Sessions
  import opened SystemRuns
  import EndMoves
  import U = UdpTables

  lemma TimerKeepsOwners(e: Endpoint, order: seq<U.Client>)
    requires U.OwnerInv(e.udp) && CanTick(e, order)
    ensures U.OwnerInv(TimerTurn(e, order).udp)
  {
    if SslIdle(e) && e.role == RemoteServer {
    } else {
      U.DoKeepsOwned(e.udp, U.TickE(SslIdle(e), order));
    }
  }

  lemma OwnStepKeepsOwners(e: Endpoint, st: Endpoints.Step)
    requires U.OwnerInv(e.udp) && Endpoints.Enabled(e, st)
    ensures U.OwnerInv(Endpoints.Do(e, st).udp)
  {
    match st
    case Request(i) => EndMoves.AddRequestMoves(TakeRequest(e, i), e.objs[i].outbox[0]);
    case AcceptTcp => U.DoKeepsOwned(e.udp, U.TcpAccepted);
    case AcceptUdp(src, data) =>
      var u := U.FromClient(e.udp, src);
      U.DoKeepsOwned(e.udp, U.FromClientE(src));
      EndMoves.AddRequestMoves(e.(udp := u), Frame(U.SessionOf(u, src), DataUdp, data));
    case TimerTick(order) => TimerKeepsOwners(e, order);
    case SenderStep(w, act) => U.DoKeepsOwned(e.udp, U.SenderE(w, act));
    case _ =>
  }

  lemma ResponseKeepsOwners(e: Endpoint, f: Frame)
    requires U.OwnerInv(e.udp) && CanHandle(e, f)
    ensures U.OwnerInv(AddResponse(e, f).udp)
  {
    var h := e.(handled := e.handled + [f]);
    match f.cmd
    case DataTcp =>
      if f.session in e.relays && e.relays[f.session].Some? {
        EndMoves.AddRequestMoves(h.(relays := h.relays - {f.session}), StopFrame(f.session));
      }
    case DataUdp =>
      if e.udp.senders != [] {
        U.DoKeepsOwned(e.udp, U.ToClientE(f));
      }
    case _ =>
  }

  lemma NextKeepsOwners(w: World, st: Sessions.Step, w': World)
    requires Next(w, st, w') && U.OwnerInv(w.local.udp)
    ensures U.OwnerInv(w'.local.udp)
  {
    match st
    case AtLocal(s) => OwnStepKeepsOwners(w.local, s);
    case DownHandle(c) => ResponseKeepsOwners(w.local, w.conns[c].down.delivered[w.conns[c].downDone]);
    case _ =>
  }

  lemma {:induction false} OwnersAt(ws: seq<World>, sts: seq<Sessions.Step>, i: nat)
    requires Behaviour(ws, sts) && i <= |sts| && U.OwnerInv(ws[0].local.udp)
    ensures U.OwnerInv(ws[i].local.udp)
    decreases i
  {
    hide Next, U.OwnerInv;
    if i > 0 {
      OwnersAt(ws, sts, i - 1);
      NextKeepsOwners(ws[i - 1], sts[i - 1], ws[i]);
    }
  }

  /** In every behaviour of the system, numbers shared with TCP or not: a
      datagram of session s that the local end has sent went to the client that
      opened s or to nobody in particular, never to another client. */
  lemma {:induction false} EveryReplyGoesHome(role: Role, ws: seq<World>, sts: seq<Sessions.Step>, i: nat)
    requires Behaviour(ws, sts) && ws[0] == Initial(role) && i <= |sts|
    ensures var u := ws[i].local.udp;
            forall k, j | 0 <= k < |u.senders| && 0 <= j < |u.senders[k].sent| ::
              U.Owned(u, u.senders[k].sent[j].session, u.senders[k].sent[j].dst)
  {
    hide Next;
    OwnersAt(ws, sts, i);
    var u := ws[i].local.udp;
    forall k, j | 0 <= k < |u.senders| && 0 <= j < |u.senders[k].sent|
      ensures U.Owned(u, u.senders[k].sent[j].session, u.senders[k].sent[j].dst)
    {
      assert U.SenderOwned(u, u.senders[k]);
    }
  }
}
