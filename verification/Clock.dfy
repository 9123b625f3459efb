/** The clock arithmetic of the DHTPERF_CHECK_DONE macro: a whole-second reading
    of a real clock, computed from the time left on a deadline timer. */
module Clock {

  // dp::timeUnit is uint32_t
  const TIME_UNITS: nat := 0x1_0000_0000

  // boost's total_seconds(): truncation towards zero
  function Trunc(x: real): int {
    if x >= 0.0 then x.Floor else -((-x).Floor)
  }

  function Ceil(x: real): int {
    -((-x).Floor)
  }

  function Remaining(duration: nat, clock: real): int {
    Trunc(duration as real - clock)
  }

  // an unsigned subtraction, so it wraps once the deadline is past
  function Elapsed(duration: nat, clock: real): nat {
    (duration - Remaining(duration, clock)) % TIME_UNITS
  }

  predicate Done(duration: nat, clock: real) {
    Remaining(duration, clock) < 0 || Elapsed(duration, clock) >= duration
  }

  /** The check fires exactly when less than one second is left; until then
      nothing wraps and the reading is the real time rounded up. */
  lemma CheckMeaning(duration: nat, clock: real)
    requires duration < TIME_UNITS && clock >= 0.0
    ensures Done(duration, clock) <==> clock > duration as real - 1.0
    ensures !Done(duration, clock) ==>
              && Elapsed(duration, clock) == Ceil(clock)
              && Remaining(duration, clock) == duration - Ceil(clock) >= 1
  {
    var left := duration as real - clock;
    if left >= 1.0 {
      assert left.Floor == duration + (-clock).Floor;
    }
  }

  lemma CeilBounds(x: real)
    ensures x <= Ceil(x) as real < x + 1.0
  {
  }

  lemma CeilMonotone(x: real, y: real)
    requires x <= y
    ensures Ceil(x) <= Ceil(y)
  {
  }

  lemma CeilShift(x: real, n: int, y: real)
    requires y >= x + n as real
    ensures Ceil(y) >= Ceil(x) + n
  {
    assert Ceil(x + n as real) == Ceil(x) + n;
  }
}
