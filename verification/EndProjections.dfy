/** A behaviour of the system, seen from one end. */
module EndProjections {
  import opened RelayQueue
  import opened SslReader
  import opened Endpoints
  import opened Sessions

  /** What a read loop's chunk means to the connection it reads from. */
  function ReadMove(k: nat, before: Reader, after: Reader): Move {
    if after.phase.Ended? then Breaks(k) else if after.delivered != before.delivered then Hears(k) else Waits
  }

  ghost function LocalMove(w: World, st: Sessions.Step): Move
    requires Sessions.Enabled(w, st)
  {
    match st
    case AtLocal(s) => Own(s)
    case DownRead(c, chunk) =>
      ReadMove(c, w.conns[c].down, Read(w.conns[c].down, w.conns[c].remote.ssls[0].out, chunk))
    case DownHandle(c) => Handles(w.conns[c].down.delivered[w.conns[c].downDone])
    case _ => Waits
  }

  ghost function RemoteMove(w: World, st: Sessions.Step, c: nat): Move
    requires Sessions.Enabled(w, st) && c < |w.conns|
  {
    match st
    case AtRemote(d, s) => if d == c then Own(s) else Waits
    case UpRead(d, chunk) =>
      if d == c then ReadMove(0, w.conns[c].up, Read(w.conns[c].up, w.local.ssls[c].out, chunk)) else Waits
    case UpHandle(d) => if d == c then Handles(w.conns[c].up.delivered[w.conns[c].upDone]) else Waits
    case _ => Waits
  }

  lemma SameSsl(e: Endpoint, k: nat)
    requires k < |e.ssls|
    ensures SetSsl(e, k, e.ssls[k]) == e
  {
    assert e.ssls[k := e.ssls[k]] == e.ssls;
  }

  lemma LocalMoves(w: World, st: Sessions.Step)
    requires Sessions.Enabled(w, st)
    ensures CanMove(w.local, LocalMove(w, st)) && Sessions.Do(w, st).local == Moved(w.local, LocalMove(w, st))
  {
    match st
    case DownRead(c, chunk) => SameSsl(w.local, c);
    case _ =>
  }

  lemma RemoteMoves(w: World, st: Sessions.Step, c: nat)
    requires Sessions.Enabled(w, st) && c < |w.conns|
    ensures CanMove(w.conns[c].remote, RemoteMove(w, st, c))
    ensures c < |Sessions.Do(w, st).conns|
    ensures Sessions.Do(w, st).conns[c].remote == Moved(w.conns[c].remote, RemoteMove(w, st, c))
  {
    match st
    case UpRead(d, chunk) => if d == c { SameSsl(w.conns[c].remote, 0); } else {}
    case _ =>
  }

  // -------------------------------------------------------------- behaviours

  function LocalStates(ws: seq<World>): (es: seq<Endpoint>)
    ensures |es| == |ws| && forall i | 0 <= i < |ws| :: es[i] == ws[i].local
  {
    seq(|ws|, i requires 0 <= i < |ws| => ws[i].local)
  }

  ghost function LocalMovesOf(ws: seq<World>, sts: seq<Sessions.Step>): (ms: seq<Move>)
    requires Behaviour(ws, sts)
    ensures |ms| == |sts|
    ensures forall i {:trigger ms[i]} | 0 <= i < |sts| :: Sessions.Enabled(ws[i], sts[i]) && ms[i] == LocalMove(ws[i], sts[i])
  {
    seq(|sts|, i requires 0 <= i < |sts| => assert Next(ws[i], sts[i], ws[i + 1]); LocalMove(ws[i], sts[i]))
  }

  /** The local end's part of a behaviour of the system is a behaviour of that
      end. */
  lemma LocalBehaviour(ws: seq<World>, sts: seq<Sessions.Step>)
    requires Behaviour(ws, sts)
    ensures EndBehaviour(LocalStates(ws), LocalMovesOf(ws, sts))
  {
    hide CanMove, Moved, LocalMove, Sessions.Do, Sessions.Enabled;
    var es, ms := LocalStates(ws), LocalMovesOf(ws, sts);
    forall i | 0 <= i < |ms|
      ensures CanMove(es[i], ms[i]) && es[i + 1] == Moved(es[i], ms[i])
    {
      assert Next(ws[i], sts[i], ws[i + 1]);
      LocalMoves(ws[i], sts[i]);
    }
  }

  lemma {:induction false} ConnStays(ws: seq<World>, sts: seq<Sessions.Step>, c: nat, n: nat, i: nat)
    requires Behaviour(ws, sts) && n <= i <= |sts| && c < |ws[n].conns|
    ensures c < |ws[i].conns|
    decreases i - n
  {
    hide Sessions.Do, Sessions.Enabled;
    if n < i {
      ConnStays(ws, sts, c, n, i - 1);
      assert Next(ws[i - 1], sts[i - 1], ws[i]);
      RemoteMoves(ws[i - 1], sts[i - 1], c);
    }
  }

  /** Connection c is there from the n-th state on. */
  ghost predicate HasConn(ws: seq<World>, sts: seq<Sessions.Step>, c: nat, n: nat) {
    && |ws| == |sts| + 1 && n <= |sts|
    && (forall i {:trigger ws[i]} | n <= i <= |sts| :: c < |ws[i].conns|)
    && forall i {:trigger sts[i]} | n <= i < |sts| :: Sessions.Enabled(ws[i], sts[i])
  }

  lemma ConnIsThere(ws: seq<World>, sts: seq<Sessions.Step>, c: nat, n: nat)
    requires Behaviour(ws, sts) && n <= |sts| && c < |ws[n].conns|
    ensures HasConn(ws, sts, c, n)
  {
    hide Sessions.Do, Sessions.Enabled;
    forall i {:trigger ws[i]} | n <= i <= |sts|
      ensures c < |ws[i].conns|
    {
      ConnStays(ws, sts, c, n, i);
    }
    forall i {:trigger sts[i]} | n <= i < |sts|
      ensures Sessions.Enabled(ws[i], sts[i])
    {
      assert Next(ws[i], sts[i], ws[i + 1]);
    }
  }

  ghost function RemoteStates(ws: seq<World>, sts: seq<Sessions.Step>, c: nat, n: nat): (es: seq<Endpoint>)
    requires HasConn(ws, sts, c, n)
    ensures |es| == |sts| - n + 1 && forall i | n <= i <= |sts| :: es[i - n] == ws[i].conns[c].remote
  {
    seq(|sts| - n + 1, i requires 0 <= i <= |sts| - n => ws[n + i].conns[c].remote)
  }

  ghost function RemoteMovesOf(ws: seq<World>, sts: seq<Sessions.Step>, c: nat, n: nat): (ms: seq<Move>)
    requires HasConn(ws, sts, c, n)
    ensures |ms| == |sts| - n
    ensures forall i {:trigger sts[i]} | n <= i < |sts| :: ms[i - n] == RemoteMove(ws[i], sts[i], c)
  {
    seq(|sts| - n, i requires 0 <= i < |sts| - n => RemoteMove(ws[n + i], sts[n + i], c))
  }

  lemma RemoteMovesAt(ws: seq<World>, sts: seq<Sessions.Step>, c: nat, n: nat, i: nat)
    requires Behaviour(ws, sts) && HasConn(ws, sts, c, n) && n <= i < |sts|
    ensures CanMove(ws[i].conns[c].remote, RemoteMove(ws[i], sts[i], c))
    ensures ws[i + 1].conns[c].remote == Moved(ws[i].conns[c].remote, RemoteMove(ws[i], sts[i], c))
  {
    hide CanMove, Moved, RemoteMove, Sessions.Do, Sessions.Enabled;
    assert Next(ws[i], sts[i], ws[i + 1]);
    RemoteMoves(ws[i], sts[i], c);
  }

  /** So is that of the remote end behind connection c, from the n-th state on if
      the connection is there by then. */
  lemma RemoteBehaviour(ws: seq<World>, sts: seq<Sessions.Step>, c: nat, n: nat)
    requires Behaviour(ws, sts) && HasConn(ws, sts, c, n)
    ensures EndBehaviour(RemoteStates(ws, sts, c, n), RemoteMovesOf(ws, sts, c, n))
  {
    hide CanMove, Moved, RemoteMove, Next, Sessions.Enabled;
    var es, ms := RemoteStates(ws, sts, c, n), RemoteMovesOf(ws, sts, c, n);
    forall i {:trigger ms[i]} | 0 <= i < |ms|
      ensures CanMove(es[i], ms[i]) && es[i + 1] == Moved(es[i], ms[i])
    {
      RemoteMovesAt(ws, sts, c, n, n + i);
      assert es[n + i - n] == ws[n + i].conns[c].remote && es[n + i + 1 - n] == ws[n + i + 1].conns[c].remote;
      assert ms[n + i - n] == RemoteMove(ws[n + i], sts[n + i], c);
    }
  }

  /** A connection's remote end starts new. */
  lemma NewConnections(w: World, st: Sessions.Step, c: nat)
    requires Sessions.Enabled(w, st) && |w.conns| <= c < |Sessions.Do(w, st).conns|
    ensures Sessions.Do(w, st).conns[c] == NEW_CONN
  {
  }
}
