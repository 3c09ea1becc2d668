/** The frame timer: the length of the last frame and the running total. Clock
    readings (seconds on a monotonic clock) are passed in. */
module Timers {
  class Timer {
    var lastInstant: real
    var lastDelta: real
    var elapsed: real
    /** The reading the timer was created at. */
    ghost const created: real
    /** Every frame length measured so far. */
    ghost var deltas: seq<real>

    ghost predicate Valid()
      reads this
    {
      lastDelta == LastOf(deltas) && created <= lastInstant &&
      (forall i :: 0 <= i < |deltas| ==> deltas[i] >= 0.0) &&
      elapsed == Sum(deltas) && elapsed <= lastInstant - created
    }

    /** `new`: started at `now`, nothing measured. */
    constructor(now: real)
      ensures Valid() && created == now
      ensures lastInstant == now && lastDelta == 0.0 && elapsed == 0.0 && deltas == []
    {
      lastInstant := now;
      lastDelta := 0.0;
      elapsed := 0.0;
      created := now;
      deltas := [];
    }

    /** `delta_time`: the length of the last frame measured (0 before the first). */
    function DeltaTime(): (d: real)
      reads this
      requires Valid()
      ensures d >= 0.0 && d == LastOf(deltas)
    {
      lastDelta
    }

    /** `elapsed`: the total of all frame lengths, never more than the time since
        the timer was created. */
    function Elapsed(): (e: real)
      reads this
      requires Valid()
      ensures e == Sum(deltas) && 0.0 <= e <= lastInstant - created
    {
      SumNonNegative(deltas);
      elapsed
    }

    /** `reset`: the frame length is the time from the last reset to `readAt` (when
        the clock is read for it); the next frame starts at `now`, read just after. */
    method Reset(readAt: real, now: real)
      requires Valid()
      requires lastInstant <= readAt <= now
      modifies this`lastInstant, this`lastDelta, this`elapsed, this`deltas
      ensures Valid()
      ensures lastDelta == readAt - old(lastInstant)
      ensures elapsed == old(elapsed) + lastDelta && elapsed >= old(elapsed)
      ensures lastInstant == now && deltas == old(deltas) + [lastDelta]
    {
      lastDelta := readAt - lastInstant;
      elapsed := elapsed + lastDelta;
      lastInstant := now;
      SumAppend(deltas, lastDelta);
      deltas := deltas + [lastDelta];
    }
  }

  function LastOf(s: seq<real>): real {
    if s == [] then 0.0 else s[|s| - 1]
  }

  function Sum(s: seq<real>): real
    decreases |s|
  {
    if s == [] then 0.0 else Sum(s[..|s| - 1]) + s[|s| - 1]
  }

  lemma SumAppend(s: seq<real>, x: real)
    ensures Sum(s + [x]) == Sum(s) + x
  {
    assert (s + [x])[..|s|] == s;
  }

  lemma {:induction false} SumNonNegative(s: seq<real>)
    requires forall i :: 0 <= i < |s| ==> s[i] >= 0.0
    ensures Sum(s) >= 0.0
    decreases |s|
  {
    if s != [] {
      SumNonNegative(s[..|s| - 1]);
    }
  }
}
