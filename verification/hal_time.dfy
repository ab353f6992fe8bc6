/** hal/time: the 32-bit millisecond clock and the elapsed-time test on it. */
module HalTime {
  const TWO32: int := 0x1_0000_0000
  const ULONG_MAX: int := 0xFFFF_FFFF_FFFF_FFFF

  type uint32 = x: int | 0 <= x < TWO32

  /** What hal_time_ms returns t milliseconds after some fixed instant. */
  function Clock(t: nat): (c: uint32) {
    t % TWO32
  }

  /** hal_timeout: every operand is truncated to 32 bits when it is stored back in `current`. */
  predicate HalTimeout(current: uint32, start: uint32, timeout: uint32) {
    var elapsed := if current < start then (current + (ULONG_MAX - start)) % TWO32 else current - start;
    elapsed >= timeout
  }

  /** The counter passed 2^32 between the two readings. */
  predicate Wrapped(t0: nat, t: nat) {
    Clock(t) < Clock(t0)
  }

  lemma ElapsedClock(t0: nat, t: nat)
    requires t0 <= t < t0 + TWO32
    ensures Clock(t) - Clock(t0) == (t - t0) - (if Wrapped(t0, t) then TWO32 else 0)
  {
    var q0, q := t0 / TWO32, t / TWO32;
    assert t0 == q0 * TWO32 + Clock(t0) && t == q * TWO32 + Clock(t);
    assert q0 <= q <= q0 + 1;
  }

  /** What the code computes when the counter wraps is one millisecond short. */
  lemma WrappedElapsed(current: uint32, start: uint32)
    requires current < start
    ensures (current + (ULONG_MAX - start)) % TWO32 == current - start + TWO32 - 1
  {
    assert current + (ULONG_MAX - start) == (current - start + TWO32 - 1) + TWO32 * (TWO32 - 1);
  }

  /** For every true elapsed time below 2^32 ms: exact, except one millisecond late across a wrap. */
  lemma TimeoutExact(t0: nat, t: nat, timeout: uint32)
    requires t0 <= t < t0 + TWO32
    ensures HalTimeout(Clock(t), Clock(t0), timeout)
            <==> t - t0 >= timeout + (if Wrapped(t0, t) then 1 else 0)
  {
    ElapsedClock(t0, t);
    if Wrapped(t0, t) {
      WrappedElapsed(Clock(t), Clock(t0));
    }
  }

  /** A timer never fires early, however much time has passed. */
  lemma NeverEarly(t0: nat, t: nat, timeout: uint32)
    requires t0 <= t
    requires HalTimeout(Clock(t), Clock(t0), timeout)
    ensures t - t0 >= timeout
  {
    if t < t0 + TWO32 {
      TimeoutExact(t0, t, timeout);
    }
  }

  /**
    * "Fires exactly when the timeout has elapsed" is false of the code at one point, and only there:
    * the counter wrapped and the elapsed time equals the timeout.
    */
  lemma TimeoutMeetsItsPromiseIff(t0: nat, t: nat, timeout: uint32)
    requires t0 <= t < t0 + TWO32
    ensures (HalTimeout(Clock(t), Clock(t0), timeout) <==> t - t0 >= timeout)
            <==> !(Wrapped(t0, t) && t - t0 == timeout)
  {
    TimeoutExact(t0, t, timeout);
  }

  lemma LateByOneExample()
    ensures !HalTimeout(Clock(TWO32 + 9), Clock(TWO32 - 1), 10)
    ensures HalTimeout(Clock(TWO32 + 10), Clock(TWO32 - 1), 10)
  {
    TimeoutExact(TWO32 - 1, TWO32 + 9, 10);
    TimeoutExact(TWO32 - 1, TWO32 + 10, 10);
  }
}
