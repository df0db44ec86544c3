/** The millisecond-to-nanosecond product stored by `setTimeout`, in 64-bit arithmetic. */
module Durations {
  import opened Basics

  /** The largest number of milliseconds whose nanosecond product fits. */
  const LONGEST: int := 9_223_372_036_854

  /** For positive timeouts the stored product is the true one exactly up to `LONGEST`, and then positive. */
  lemma ExactUpToLongest(ms: int)
    requires 0 < ms <= MAX_INT64
    ensures TimeoutFor(ms) == ms * NANOS_PER_MILLI <==> ms <= LONGEST
    ensures ms <= LONGEST ==> TimeoutFor(ms) > 0
  {
    if ms <= LONGEST {
      assert 0 < ms * NANOS_PER_MILLI <= MAX_INT64;
    } else {
      assert ms * NANOS_PER_MILLI > MAX_INT64;
    }
  }

  /** One millisecond more wraps to a negative duration, which the socket treats as disabled. */
  lemma WrapsToDisabled()
    ensures TimeoutFor(LONGEST + 1) < 0
  {}
}
