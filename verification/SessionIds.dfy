/** Session numbers: add_local_raw_tcp takes `_session++`, send_udp_data takes
    `++_session`, from one counter. */
module SessionIds {

  datatype Kind = Tcp | Udp

  function IdOf(counter: nat, kind: Kind): nat {
    match kind
    case Tcp => counter
    case Udp => counter + 1
  }

  /** The ids that a sequence of allocations hands out; both kinds leave the
      counter one higher. */
  function Ids(counter: nat, kinds: seq<Kind>): (ids: seq<nat>)
    ensures |ids| == |kinds|
    decreases |kinds|
  {
    if kinds == [] then [] else [IdOf(counter, kinds[0])] + Ids(counter + 1, kinds[1..])
  }

  lemma {:induction false} IdAt(counter: nat, kinds: seq<Kind>, i: nat)
    requires i < |kinds|
    ensures Ids(counter, kinds)[i] == IdOf(counter + i, kinds[i])
    decreases i
  {
    if i > 0 {
      IdAt(counter + 1, kinds[1..], i - 1);
    }
  }

  /** Exactly when two sessions share an id: the earlier one is a UDP session
      and the very next allocation is a TCP session. In particular no two TCP
      sessions and no two UDP sessions ever do. */
  lemma SharedIdExact(counter: nat, kinds: seq<Kind>, i: nat, j: nat)
    requires i < j < |kinds|
    ensures Ids(counter, kinds)[i] == Ids(counter, kinds)[j] <==> j == i + 1 && kinds[i] == Udp && kinds[j] == Tcp
  {
    IdAt(counter, kinds, i);
    IdAt(counter, kinds, j);
  }

  predicate AllDistinct(ids: seq<nat>) {
    forall i, j | 0 <= i < j < |ids| :: ids[i] != ids[j]
  }

  /** A TCP session is accepted right after a UDP session was opened. */
  predicate UdpThenTcp(kinds: seq<Kind>, i: nat) {
    i + 1 < |kinds| && kinds[i] == Udp && kinds[i + 1] == Tcp
  }

  /** All ids are distinct exactly when that never happens. */
  lemma DistinctExact(counter: nat, kinds: seq<Kind>)
    ensures AllDistinct(Ids(counter, kinds)) <==> forall i: nat :: !UdpThenTcp(kinds, i)
  {
    var ids := Ids(counter, kinds);
    if i: nat :| UdpThenTcp(kinds, i) {
      SharedIdExact(counter, kinds, i, i + 1);
    } else {
      forall i, j | 0 <= i < j < |ids|
        ensures ids[i] != ids[j]
      {
        assert !UdpThenTcp(kinds, i);
        SharedIdExact(counter, kinds, i, j);
      }
    }
  }
}
