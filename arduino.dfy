/**
 * The few pieces of Arduino core semantics the firmware's arithmetic depends on:
 * the 32-bit `unsigned long` returned by `millis()`, the wrap-around of
 * subtracting two such timestamps, the `abs` macro on floats and the
 * truncating `(int)` cast.
 */
module Arduino {

  /** `unsigned long` is 32 bits wide on the ESP32. */
  const MILLIS_MODULUS: int := 0x1_0000_0000

  /** A value returned by `millis()`; it wraps to 0 after about 49.7 days. */
  type Millis = x: int | 0 <= x < MILLIS_MODULUS

  /**
   * `now - since` evaluated on `unsigned long`: the elapsed time, correct
   * across one wrap of the clock.
   */
  function Elapsed(now: Millis, since: Millis): (d: Millis)
    ensures since <= now ==> d == now - since
    ensures now < since ==> d == now - since + MILLIS_MODULUS
  {
    (now - since) % MILLIS_MODULUS
  }

  /** Elapsed time measured from `since` undoes adding a delay to it. */
  lemma ElapsedAfterDelay(since: Millis, delay: Millis)
    ensures Elapsed((since + delay) % MILLIS_MODULUS, since) == delay
  {
  }

  /** Arduino's `abs` applied to a float. */
  function Abs(x: real): (r: real)
    ensures r >= 0.0
    ensures r == x || r == -x
  {
    if x > 0.0 then x else -x
  }

  /** The C cast `(int)x` of a float: truncation toward zero. */
  function TruncToInt(x: real): (n: int)
    ensures x >= 0.0 ==> 0 <= n && n as real <= x < n as real + 1.0
    ensures x < 0.0 ==> n <= 0 && n as real - 1.0 < x <= n as real
  {
    if x >= 0.0 then x.Floor else -((-x).Floor)
  }
}
