// Real arithmetic shared by every module: min/max/clip as Python writes them,
// round-half-up to a number of decimals, sums, and the transcendental
// functions the pricing code calls, kept uninterpreted.
module Numerics {

  function Min(a: real, b: real): (r: real)
    ensures r <= a && r <= b && (r == a || r == b)
  {
    if b < a then b else a
  }

  function Max(a: real, b: real): (r: real)
    ensures r >= a && r >= b && (r == a || r == b)
  {
    if b > a then b else a
  }

  lemma MinMonotone(x: real, y: real, c: real)
    requires x <= y
    ensures Min(x, c) <= Min(y, c)
  {
  }

  /** Python's `max(lo, min(hi, x))`. */
  function Clip(lo: real, hi: real, x: real): (r: real)
    requires lo <= hi
    ensures lo <= r <= hi
    ensures lo <= x <= hi ==> r == x
  {
    Max(lo, Min(hi, x))
  }

  function Abs(x: real): real
  {
    if x < 0.0 then -x else x
  }

  /**
   * Python's `round(x, n)` with `scale` = 10^n, taken as exact
   * round-half-up on reals.
   */
  function Round(x: real, scale: nat): real
    requires scale >= 1
  {
    (x * scale as real + 0.5).Floor as real / scale as real
  }

  /** Rounding moves a value by at most half a unit of 1/scale. */
  lemma {:induction false} RoundError(x: real, scale: nat)
    requires scale >= 1
    ensures x - 1.0 / (2.0 * scale as real) < Round(x, scale) <= x + 1.0 / (2.0 * scale as real)
  {
    RoundBounds(x, scale as real, (x * scale as real + 0.5).Floor as real);
  }

  lemma RoundBounds(x: real, scale: real, n: real)
    requires scale >= 1.0
    requires n <= x * scale + 0.5 < n + 1.0
    ensures x - 1.0 / (2.0 * scale) < n / scale <= x + 1.0 / (2.0 * scale)
  {
    assert n / scale <= (x * scale + 0.5) / scale;
    assert (x * scale + 0.5) / scale == x + 1.0 / (2.0 * scale);
    assert (x * scale - 0.5) / scale < n / scale;
    assert (x * scale - 0.5) / scale == x - 1.0 / (2.0 * scale);
  }

  /** `round(x, 2)`: cents. */
  function Round2(x: real): real
  {
    Round(x, 100)
  }

  /** A weight in [0, 1] scales a non-negative base to somewhere between nothing and all of it. */
  lemma Weighted(base: real, w: real)
    requires 0.0 <= base && 0.0 <= w <= 1.0
    ensures 0.0 <= base * w <= base
  {
    MulLeft(w, 1.0, base);
  }

  lemma MulLeft(a: real, b: real, c: real)
    requires a <= b && 0.0 <= c
    ensures a * c <= b * c
  {
  }

  /** Comparing a quotient with a bound is comparing the dividend with the scaled bound. */
  lemma {:induction false} DivAtMost(a: real, m: real, c: real)
    requires m > 0.0
    ensures a / m <= c <==> a <= c * m
  {
    MulDivCancel(a, m);
    if a / m <= c {
      MulLeft(a / m, c, m);
    } else {
      var d := a / m - c;
      MulPositive(d, m);
      assert d * m == (a / m) * m - c * m;
      GreaterByPositive(a, c * m, d * m);
    }
  }

  lemma {:induction false} DivAtLeast(a: real, m: real, c: real)
    requires m > 0.0
    ensures a / m >= c <==> a >= c * m
  {
    MulDivCancel(a, m);
    if a / m >= c {
      MulLeft(c, a / m, m);
    } else {
      var d := c - a / m;
      MulPositive(d, m);
      assert d * m == c * m - (a / m) * m;
      GreaterByPositive(c * m, a, d * m);
    }
  }

  lemma GreaterByPositive(x: real, y: real, z: real)
    requires z > 0.0 && z == x - y
    ensures x > y
  {
  }

  lemma MulPositive(a: real, b: real)
    requires a > 0.0 && b > 0.0
    ensures a * b > 0.0
  {
  }

  lemma MulNonNegative(a: real, b: real)
    requires a >= 0.0 && b >= 0.0
    ensures a * b >= 0.0
  {
  }

  lemma DivLeft(a: real, b: real, c: real)
    requires a <= b && 0.0 < c
    ensures a / c <= b / c
  {
  }

  lemma FloorMonotone(u: real, v: real)
    requires u <= v
    ensures u.Floor <= v.Floor
  {
  }

  /** Rounding never reverses the order of two values. */
  lemma {:induction false} RoundMonotone(x: real, y: real, scale: nat)
    requires x <= y && scale >= 1
    ensures Round(x, scale) <= Round(y, scale)
  {
    MulLeft(x, y, scale as real);
    RoundViaFloor(x, y, x * scale as real + 0.5, y * scale as real + 0.5, scale);
  }

  lemma RoundViaFloor(x: real, y: real, u: real, v: real, scale: nat)
    requires scale >= 1 && u <= v
    requires u == x * scale as real + 0.5 && v == y * scale as real + 0.5
    ensures Round(x, scale) <= Round(y, scale)
  {
    FloorMonotone(u, v);
    DivLeft(u.Floor as real, v.Floor as real, scale as real);
  }

  lemma FloorOfHalfAbove(k: int)
    ensures (k as real + 0.5).Floor == k
  {
  }

  lemma RoundOfWhole(x: real, scale: nat, k: int)
    requires scale >= 1 && x * scale as real == k as real
    ensures Round(x, scale) == k as real / scale as real
  {
    FloorOfHalfAbove(k);
  }

  lemma MulDivCancel(k: real, s: real)
    requires s > 0.0
    ensures (k / s) * s == k
  {
  }

  /** A whole number of units of 1/scale needs no rounding. */
  lemma {:induction false} RoundWhole(k: int, scale: nat)
    requires scale >= 1
    ensures Round(k as real / scale as real, scale) == k as real / scale as real
  {
    MulDivCancel(k as real, scale as real);
    RoundOfWhole(k as real / scale as real, scale, k);
  }

  /** Rounding keeps a value inside [0, hi] for a whole `hi`. */
  lemma {:induction false} RoundWithin(x: real, scale: nat, hi: nat)
    requires 0.0 <= x <= hi as real && scale >= 1
    ensures 0.0 <= Round(x, scale) <= hi as real
  {
    RoundMonotone(0.0, x, scale);
    RoundMonotone(x, hi as real, scale);
    RoundOfWhole(0.0, scale, 0);
    RoundOfWhole(hi as real, scale, hi * scale);
  }

  /** Python's `sum`; a sum of non-negative terms is non-negative. */
  function Sum(s: seq<real>): (r: real)
    ensures (forall i :: 0 <= i < |s| ==> s[i] >= 0.0) ==> r >= 0.0
  {
    if |s| == 0 then 0.0 else Sum(s[..|s| - 1]) + s[|s| - 1]
  }

  lemma SumAppend(s: seq<real>, x: real)
    ensures Sum(s + [x]) == Sum(s) + x
  {
    assert (s + [x])[..|s|] == s;
  }

  lemma SquareNonNegative(x: real)
    ensures x * x >= 0.0
  {
    if x < 0.0 {
      MulLeft(x, 0.0, -x);
    }
  }

  /** `part / whole * 100`, or 0 when `whole` is 0: the win rates of the reports. */
  function Percent(part: nat, whole: nat): (r: real)
    requires part <= whole
    ensures 0.0 <= r <= 100.0
    ensures whole == 0 ==> r == 0.0
    ensures whole > 0 ==> (r == 100.0 <==> part == whole) && (r == 0.0 <==> part == 0)
  {
    if whole > 0 then
      DivLeft(part as real, whole as real, whole as real);
      part as real / whole as real * 100.0
    else 0.0
  }

  /**
   * The transcendental functions the pricing code calls (`math.log`,
   * `math.sqrt` and the standard normal CDF built on `math.erfc`).  They are
   * parameters of the model; only the facts a caller needs are assumed.
   */
  datatype Transcendentals = Transcendentals(ln: real -> real, sqrt: real -> real, normCdf: real -> real)
  {
    /** The square root of a positive number is positive. */
    ghost predicate PositiveRoot()
    {
      forall x: real :: 0.0 < x ==> 0.0 < sqrt(x)
    }
  }
}
