/**
 * The two pieces of Kotlin arithmetic the core relies on: `%` on `Int`,
 * which truncates toward zero (unlike Dafny's Euclidean `%`), and
 * `coerceIn`, which clamps a value into a closed interval.
 */
module KotlinMath {

  /**
   * Kotlin/JVM `a % b` for a positive divisor (the only kind the core
   * uses): the sign of the result follows `a`, and it differs from `a`
   * by a multiple of `b`.
   */
  function Rem(a: int, b: int): (r: int)
    requires b > 0
    ensures a >= 0 ==> 0 <= r < b
    ensures a < 0 ==> -b < r <= 0
    ensures (r + b) % b == a % b
  {
    if a >= 0 then
      var m := a % b;
      ModUnique(m + b, b, 1, m);
      m
    else
      var q, m := (-a) / b, (-a) % b;
      ModUnique(a, b, -q - 1, b - m);
      ModUnique(b - m, b, 0, b - m);
      if m == 0 then 0 else -m
  }

  /** Euclidean division is unique: a quotient and remainder in range are Dafny's. */
  lemma ModUnique(a: int, b: int, q: int, r: int)
    requires b > 0 && 0 <= r <= b && a == q * b + r
    ensures r < b ==> a % b == r
    ensures r == b ==> a % b == 0
  {
    var q', r' := a / b, a % b;
    assert a == q' * b + r';
    var d := if r < b then q - q' else q + 1 - q';
    assert d * b == if r < b then r' - r else r';
    if d > 0 {
      assert false;
    } else if d < 0 {
      assert false;
    }
  }

  /**
   * `v.coerceIn(lo, hi)`; Kotlin throws when `lo > hi`, so callers must
   * supply a non-empty interval.
   */
  function Clamp(v: real, lo: real, hi: real): (r: real)
    requires lo <= hi
    ensures lo <= r <= hi
    ensures lo <= v <= hi ==> r == v
    ensures v < lo ==> r == lo
    ensures v > hi ==> r == hi
  {
    if v < lo then lo else if v > hi then hi else v
  }
}
