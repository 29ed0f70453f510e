/** The ESP32's `millis()` counter: an `unsigned long` of 32 bits that wraps
    back to 0 after 2^32 - 1 milliseconds (about 49.7 days). */
module Millis {

  const TWO32: int := 0x1_0000_0000

  /** A value of the 32-bit `unsigned long` type. */
  type U32 = x: int | 0 <= x < 0x1_0000_0000

  /** `a - b` on `unsigned long`: the difference wraps modulo 2^32. It is the
      offset that, added to `b` on the wrapping counter, gives `a`. */
  function Sub(a: U32, b: U32): (r: U32)
    ensures (b + r) % TWO32 == a
    ensures b <= a ==> r == a - b
    ensures a < b ==> r == TWO32 + a - b
  {
    (a - b) % TWO32
  }

  /** The counter's value `d` milliseconds after it read `t`. */
  function After(t: U32, d: nat): (r: U32)
    ensures d < TWO32 ==> (r == t + d || r == t + d - TWO32)
  {
    (t + d) % TWO32
  }

  /** The source measures every interval as `now - start`; this is correct
      across the wrap: `d` milliseconds after `t`, the subtraction yields `d`,
      for any `d` shorter than a full wrap. */
  lemma ElapsedAfter(t: U32, d: nat)
    requires d < TWO32
    ensures Sub(After(t, d), t) == d
  {
    if t + d < TWO32 {
      assert After(t, d) == t + d;
    } else {
      assert After(t, d) == t + d - TWO32;
    }
  }
}
