/** Kotlin's Double.toInt on exact reals: truncation toward zero, saturated to the Int range. */
module KotlinNumbers {
  const IntMin: int := -0x8000_0000
  const IntMax: int := 0x7FFF_FFFF

  /** The whole part of `x`, dropping the fraction toward zero. */
  function Truncate(x: real): (n: int)
    ensures x >= 0.0 ==> 0 <= n && n as real <= x < n as real + 1.0
    ensures x < 0.0 ==> n <= 0 && n as real - 1.0 < x <= n as real
  {
    if x >= 0.0 then x.Floor else -((-x).Floor)
  }

  /** Double.toInt: the truncation, or the nearest Int bound when it does not fit. */
  function ToInt(x: real): (n: int)
    ensures IntMin <= n <= IntMax
    ensures IntMin <= Truncate(x) <= IntMax ==> n == Truncate(x)
    ensures Truncate(x) > IntMax ==> n == IntMax
    ensures Truncate(x) < IntMin ==> n == IntMin
  {
    var t := Truncate(x);
    if t > IntMax then IntMax else if t < IntMin then IntMin else t
  }

  /** A larger value never converts to a smaller Int. */
  lemma ToIntMonotone(x: real, y: real)
    requires x <= y
    ensures ToInt(x) <= ToInt(y)
  {
    if x >= 0.0 {
      assert (x.Floor as real) <= y;
    } else if y < 0.0 {
      assert -((-y).Floor) as real >= x;
    }
  }

  /** Any value at least as large as a whole number in range converts to at least that number. */
  lemma ToIntAtLeast(x: real, k: int)
    requires 0 <= k <= IntMax && x >= k as real
    ensures ToInt(x) >= k
  {
    ToIntMonotone(k as real, x);
  }
}
