/** The simulation clock that `get_next_timestamp` advances, in whole seconds
    from an arbitrary start. */
module Clock {
  import opened RandomDraws

  /** Seconds, from an arbitrary origin (the process start in `main.py`). */
  type Timestamp = int

  /** Bounds of the `random.randint(30, 60)` wait added on every tick. */
  const MinWait: int := 30
  const MaxWait: int := 60

  /** A wait the clock can be advanced by. */
  predicate IsWait(seconds: int) {
    IsRandInt(MinWait, MaxWait, seconds)
  }

  predicate AllWaits(waits: seq<int>) {
    forall i :: 0 <= i < |waits| ==> IsWait(waits[i])
  }

  /** The clock after ticks that waited `waits`, in order, starting at `origin`. */
  function ClockAfter(origin: Timestamp, waits: seq<int>): Timestamp
    decreases |waits|
  {
    if |waits| == 0 then origin
    else ClockAfter(origin, waits[..|waits| - 1]) + waits[|waits| - 1]
  }

  /** Appending a wait moves the clock on by exactly that wait. */
  lemma {:induction false} ClockAfterSnoc(origin: Timestamp, waits: seq<int>, seconds: int)
    ensures ClockAfter(origin, waits + [seconds]) == ClockAfter(origin, waits) + seconds
  {
  }

  /** After n ticks the clock is between 30n and 60n seconds past its origin. */
  lemma {:induction false} ClockBounds(origin: Timestamp, waits: seq<int>)
    requires AllWaits(waits)
    ensures origin + MinWait * |waits| <= ClockAfter(origin, waits) <= origin + MaxWait * |waits|
  {
    if |waits| > 0 {
      ClockBounds(origin, waits[..|waits| - 1]);
    }
  }

  /** The clock strictly increases: a later tick reads at least 30 seconds per
      intervening tick more than an earlier one. */
  lemma {:induction false} ClockIncreases(origin: Timestamp, waits: seq<int>, i: nat, j: nat)
    requires AllWaits(waits) && i < j <= |waits|
    ensures ClockAfter(origin, waits[..i]) + MinWait * (j - i) <= ClockAfter(origin, waits[..j])
  {
    if i < j - 1 {
      ClockIncreases(origin, waits, i, j - 1);
    }
    assert waits[..j][..j - 1] == waits[..j - 1];
  }
}
