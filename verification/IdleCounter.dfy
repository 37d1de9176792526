/** An idle counter on its own: set to 9 by use, counted down by ticks. */
module IdleCounter {
  import opened RelayData

  datatype Mark = Used | Ticked | Neither

  /** How many ticks are left after b moves, of t at the start. */
  function Left(marks: seq<Mark>, t: int, b: nat): int
    requires b <= |marks|
    decreases b
  {
    if b == 0 then t
    else match marks[b - 1]
      case Used => TIMEOUT
      case Ticked => Left(marks, t, b - 1) - 1
      case Neither => Left(marks, t, b - 1)
  }

  /** How many of the moves from a up to b are ticks. */
  function TicksIn(marks: seq<Mark>, a: nat, b: nat): nat
    requires a <= b <= |marks|
    decreases b
  {
    if a == b then 0 else TicksIn(marks, a, b - 1) + if marks[b - 1].Ticked? then 1 else 0
  }

  /** After b moves fewer than nine ticks have passed since the last use; or,
      with no use so far, fewer than t. */
  ghost predicate RecentlyUsed(marks: seq<Mark>, t: int, b: nat)
    requires b <= |marks|
  {
    || TicksIn(marks, 0, b) < t
    || exists a {:trigger marks[a]} | 0 <= a < b :: marks[a] == Used && TicksIn(marks, a + 1, b) < TIMEOUT
  }

  lemma {:induction false} LeftSinceStart(marks: seq<Mark>, t: int, b: nat)
    requires b <= |marks| && t <= TIMEOUT
    ensures t - TicksIn(marks, 0, b) <= Left(marks, t, b) <= TIMEOUT
    decreases b
  {
    if b > 0 {
      LeftSinceStart(marks, t, b - 1);
    }
  }

  lemma {:induction false} LeftSinceUse(marks: seq<Mark>, t: int, a: nat, b: nat)
    requires a < b <= |marks| && marks[a] == Used
    ensures TIMEOUT - TicksIn(marks, a + 1, b) <= Left(marks, t, b)
    decreases b
  {
    if b > a + 1 {
      LeftSinceUse(marks, t, a, b - 1);
    }
  }

  /** Who was used recently has a tick left. */
  lemma UsedHasLeft(marks: seq<Mark>, t: int, b: nat)
    requires b <= |marks| && t <= TIMEOUT && RecentlyUsed(marks, t, b)
    ensures Left(marks, t, b) >= 1
  {
    hide Left, TicksIn;
    if TicksIn(marks, 0, b) < t {
      LeftSinceStart(marks, t, b);
    } else {
      var a :| 0 <= a < b && marks[a] == Used && TicksIn(marks, a + 1, b) < TIMEOUT;
      LeftSinceUse(marks, t, a, b);
    }
  }

  /** Who is not used at all has t minus the ticks left. */
  lemma {:induction false} UnusedLeft(marks: seq<Mark>, t: int, b: nat)
    requires b <= |marks| && forall j | 0 <= j < b :: marks[j] != Used
    ensures Left(marks, t, b) == t - TicksIn(marks, 0, b)
    decreases b
  {
    if b > 0 {
      UnusedLeft(marks, t, b - 1);
    }
  }
}
