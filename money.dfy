/**
 * Exact decimal money. Python's `Decimal` values are modelled as Dafny `real`s,
 * and `quantize(Decimal('0.01'), rounding=...)` as rounding to whole cents.
 */
module Money {

  /** `x` is a whole number of cents. */
  predicate IsCents(x: real) {
    (x * 100.0).Floor as real == x * 100.0
  }

  /** The number of cents in a cent-valued amount. */
  function CentsOf(x: real): int {
    (x * 100.0).Floor
  }

  function Abs(x: real): (r: real)
    ensures r >= 0.0 && (r == x || r == -x)
  {
    if x >= 0.0 then x else -x
  }

  function Max(a: real, b: real): (r: real)
    ensures r >= a && r >= b && (r == a || r == b)
  {
    if a >= b then a else b
  }

  function Min(a: real, b: real): (r: real)
    ensures r <= a && r <= b && (r == a || r == b)
  {
    if a <= b then a else b
  }

  /** A per-unit amount times a whole number of units. */
  function Times(amount: real, count: int): (r: real)
    ensures amount >= 0.0 && count >= 0 ==> r >= 0.0
  {
    amount * count as real
  }

  /** Multiplying by a count distributes over a difference. */
  lemma TimesSub(a: real, b: real, count: int)
    ensures Times(a, count) - Times(b, count) == Times(a - b, count)
  {
    assert a * count as real - b * count as real == (a - b) * count as real;
  }

  /** A positive count keeps an amount at least as large as any non-negative bound below it. */
  lemma TimesAtLeast(a: real, bound: real, count: int)
    requires 0.0 <= bound <= a && count >= 1
    ensures Times(a, count) >= bound
  {
    assert a * count as real >= a * 1.0;
  }

  /**
   * `quantize(Decimal('0.01'), rounding=ROUND_HALF_UP)`: the nearest cent, and on
   * a tie the cent farther from zero (-8.775 becomes -8.78).
   */
  function RoundHalfUp(x: real): (r: real)
    ensures IsCents(r)
    ensures Abs(r - x) <= 0.005
    ensures Abs(r - x) == 0.005 ==> Abs(r) > Abs(x)
    ensures x >= 0.0 ==> r >= 0.0
    ensures x <= 0.0 ==> r <= 0.0
  {
    if x >= 0.0 then RoundHalfUpMagnitude(x)
    else
      var m := RoundHalfUpMagnitude(-x);
      CentsNeg(m);
      -m
  }

  /** Half-up rounding of a non-negative amount: the nearest cent, ties upward. */
  function RoundHalfUpMagnitude(y: real): (r: real)
    requires y >= 0.0
    ensures IsCents(r) && r >= 0.0
    ensures -0.005 < r - y <= 0.005
  {
    var n := (y * 100.0 + 0.5).Floor;
    assert n as real <= y * 100.0 + 0.5 < n as real + 1.0;
    var r := n as real / 100.0;
    assert r * 100.0 == n as real;
    r
  }

  /**
   * `quantize(Decimal('0.01'))` under the default context, whose rounding is
   * ROUND_HALF_EVEN: the nearest cent, and on a tie the even number of cents.
   */
  function RoundHalfEven(x: real): (r: real)
    ensures IsCents(r)
    ensures Abs(r - x) <= 0.005
    ensures Abs(r - x) == 0.005 ==> CentsOf(r) % 2 == 0
  {
    var n := (x * 100.0).Floor;
    var frac := x * 100.0 - n as real;
    var m := if frac < 0.5 then n
             else if frac > 0.5 then n + 1
             else if n % 2 == 0 then n else n + 1;
    m as real / 100.0
  }

  /** A cent-valued amount is its own rounding, under either rule. */
  lemma RoundCentsExact(x: real)
    requires IsCents(x)
    ensures RoundHalfUp(x) == x
    ensures RoundHalfEven(x) == x
  {
    CentsClose(RoundHalfUp(x), x);
    CentsClose(RoundHalfEven(x), x);
  }

  /** Two cent-valued amounts less than a cent apart are equal. */
  lemma CentsClose(a: real, b: real)
    requires IsCents(a) && IsCents(b)
    requires Abs(a - b) < 0.01
    ensures a == b
  {
    var m, n := (a * 100.0).Floor, (b * 100.0).Floor;
    assert (m - n) as real == (a - b) * 100.0;
    assert -1 < m - n < 1;
  }

  /**
   * Rounding keeps a value inside any interval whose ends are whole cents; in
   * particular it never flips a value across a cent-valued bound.
   */
  lemma RoundWithinCentBounds(x: real, lo: real, hi: real)
    requires IsCents(lo) && IsCents(hi)
    requires lo <= x <= hi
    ensures lo <= RoundHalfEven(x) <= hi
    ensures lo <= RoundHalfUp(x) <= hi
  {
    var e, u := RoundHalfEven(x), RoundHalfUp(x);
    CentsBelow(lo, e, x);
    CentsBelow(lo, u, x);
    CentsNeg(hi);
    CentsNeg(e);
    CentsNeg(u);
    CentsBelow(-hi, -e, -x);
    CentsBelow(-hi, -u, -x);
  }

  /** A cent value within half a cent of `x >= lo` is itself at least `lo`. */
  lemma CentsBelow(lo: real, r: real, x: real)
    requires IsCents(lo) && IsCents(r)
    requires lo <= x && Abs(r - x) <= 0.005
    ensures lo <= r
  {
    var m, n := (lo * 100.0).Floor, (r * 100.0).Floor;
    assert lo * 100.0 == m as real && r * 100.0 == n as real;
    assert r >= lo - 0.005;
    assert (n - m) as real >= -0.5;
    NonNegativeFromHalf(n - m);
    assert r * 100.0 >= lo * 100.0;
  }

  /** A whole number no lower than -1/2 is not negative. */
  lemma NonNegativeFromHalf(k: int)
    requires k as real >= -0.5
    ensures k >= 0
  {
  }

  lemma CentsNeg(a: real)
    requires IsCents(a)
    ensures IsCents(-a)
  {
    var n := (a * 100.0).Floor;
    assert -a * 100.0 == (-n) as real;
  }

  lemma CentsAdd(a: real, b: real)
    requires IsCents(a) && IsCents(b)
    ensures IsCents(a + b) && IsCents(a - b)
  {
    var m, n := (a * 100.0).Floor, (b * 100.0).Floor;
    assert a * 100.0 == m as real && b * 100.0 == n as real;
    var sum, diff := (a + b) * 100.0, (a - b) * 100.0;
    assert sum == a * 100.0 + b * 100.0 == (m + n) as real;
    assert diff == a * 100.0 - b * 100.0 == (m - n) as real;
    assert ((m + n) as real).Floor == m + n;
    assert ((m - n) as real).Floor == m - n;
  }

  lemma CentsScale(a: real, k: int)
    requires IsCents(a)
    ensures IsCents(a * k as real)
  {
    var n := (a * 100.0).Floor;
    assert a * k as real * 100.0 == (n * k) as real;
  }

  /** Multiplying a cent value by 100 gives a whole number, so a cent value again. */
  lemma CentsHundredfold(a: real)
    requires IsCents(a)
    ensures IsCents(a * 100.0)
  {
    CentsScale(a, 100);
  }
}
