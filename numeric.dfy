/** Exact-arithmetic counterparts of the JavaScript `Math` helpers and
    number operators that the orb engine uses. Numbers are modelled as
    `real`: there is no rounding, no NaN and no infinity. */
module Numeric {

  /** `Math.PI`: the IEEE-754 double nearest to pi, written out exactly. */
  const Pi: real := 3.141592653589793115997963468544185161590576171875

  /** `Math.min` on two numbers. */
  function Min(a: real, b: real): (r: real)
    ensures r <= a && r <= b
    ensures r == a || r == b
  {
    if a <= b then a else b
  }

  /** `Math.max` on two numbers. */
  function Max(a: real, b: real): (r: real)
    ensures a <= r && b <= r
    ensures r == a || r == b
  {
    if a >= b then a else b
  }

  /** `Math.min` on two integer-valued numbers. */
  function IntMin(a: int, b: int): (r: int)
    ensures r <= a && r <= b
    ensures r == a || r == b
  {
    if a <= b then a else b
  }

  /** `Math.max` on two integer-valued numbers. */
  function IntMax(a: int, b: int): (r: int)
    ensures a <= r && b <= r
    ensures r == a || r == b
  {
    if a >= b then a else b
  }

  /** `Math.abs`. */
  function Abs(x: real): (r: real)
    ensures 0.0 <= r
    ensures r == x || r == -x
  {
    if x < 0.0 then -x else x
  }

  /** `Math.round`: the integer nearest to `x`, halves rounded up. */
  function Round(x: real): (r: int)
    ensures x - 0.5 < r as real <= x + 0.5
  {
    (x + 0.5).Floor
  }

  lemma RoundMonotone(x: real, y: real)
    requires x <= y
    ensures Round(x) <= Round(y)
  {
  }

  /** Truncation toward zero, the quotient that JavaScript's `%` uses. */
  function Trunc(x: real): (q: int)
    ensures 0.0 <= x ==> q as real <= x < q as real + 1.0
    ensures x < 0.0 ==> q as real - 1.0 < x <= q as real
  {
    if x >= 0.0 then x.Floor else -((-x).Floor)
  }

  /** JavaScript's `a % b` on numbers for a positive divisor: the remainder
      of truncating division, carrying the sign of the dividend. */
  function Rem(a: real, b: real): (r: real)
    requires 0.0 < b
    ensures 0.0 <= a ==> 0.0 <= r < b
    ensures a < 0.0 ==> -b < r <= 0.0
    ensures ((a - r) / b).Floor as real == (a - r) / b
  {
    var q := Trunc(a / b);
    RemBounds(a, b, q);
    a - q as real * b
  }

  /** Multiplying by a positive number keeps a strict order. */
  lemma MulStrict(u: real, v: real, b: real)
    requires 0.0 < b && u < v
    ensures u * b < v * b
  {
  }

  /** Multiplying by a non-negative number keeps a weak order. */
  lemma MulMono(u: real, v: real, b: real)
    requires 0.0 <= b && u <= v
    ensures u * b <= v * b
  {
  }

  lemma RemBounds(a: real, b: real, q: int)
    requires 0.0 < b && q == Trunc(a / b)
    ensures 0.0 <= a ==> 0.0 <= a - q as real * b < b
    ensures a < 0.0 ==> -b < a - q as real * b <= 0.0
    ensures ((q as real * b) / b).Floor == q
  {
    var x := a / b;
    assert a == x * b;
    if 0.0 <= x {
      MulMono(0.0, x, b);
      QuotientBelow(a, b, q);
    } else {
      MulStrict(x, 0.0, b);
      QuotientAbove(a, b, q);
    }
    assert ((q as real * b) / b) == q as real by { MulCancel(q as real, b); }
  }

  lemma QuotientBelow(a: real, b: real, q: int)
    requires 0.0 < b && q as real <= a / b < q as real + 1.0
    ensures 0.0 <= a - q as real * b < b
  {
    QuotientBelowLow(a, b, q);
    QuotientBelowHigh(a, b, q);
  }

  lemma QuotientBelowLow(a: real, b: real, q: int)
    requires 0.0 < b && q as real <= a / b
    ensures 0.0 <= a - q as real * b
  {
    var x := a / b;
    assert a == x * b;
    MulMono(q as real, x, b);
  }

  lemma QuotientBelowHigh(a: real, b: real, q: int)
    requires 0.0 < b && a / b < q as real + 1.0
    ensures a - q as real * b < b
  {
    var x := a / b;
    var qr := q as real;
    assert a == x * b;
    MulStrict(x, qr + 1.0, b);
    assert (qr + 1.0) * b == qr * b + b;
  }

  lemma QuotientAbove(a: real, b: real, q: int)
    requires 0.0 < b && q as real - 1.0 < a / b <= q as real
    ensures -b < a - q as real * b <= 0.0
  {
    QuotientAboveLow(a, b, q);
    QuotientAboveHigh(a, b, q);
  }

  lemma QuotientAboveLow(a: real, b: real, q: int)
    requires 0.0 < b && q as real - 1.0 < a / b
    ensures -b < a - q as real * b
  {
    var x := a / b;
    var qr := q as real;
    assert a == x * b;
    MulStrict(qr - 1.0, x, b);
    assert (qr - 1.0) * b == qr * b - b;
  }

  lemma QuotientAboveHigh(a: real, b: real, q: int)
    requires 0.0 < b && a / b <= q as real
    ensures a - q as real * b <= 0.0
  {
    var x := a / b;
    assert a == x * b;
    MulMono(x, q as real, b);
  }

  lemma MulCancel(qr: real, b: real)
    requires 0.0 < b
    ensures (qr * b) / b == qr
  {
  }

  /** JavaScript's `a % b` on integer-valued numbers for a positive divisor. */
  function IntRem(a: int, b: int): (r: int)
    requires 0 < b
    ensures 0 <= a ==> 0 <= r < b
    ensures a < 0 ==> -b < r <= 0
  {
    if a >= 0 then a % b else -((-a) % b)
  }

  /** The sum of a sequence, accumulated left to right as the source's loops do. */
  function Sum(s: seq<real>): real
  {
    if |s| == 0 then 0.0 else Sum(s[..|s| - 1]) + s[|s| - 1]
  }

  /** One more step of a left-to-right accumulation. */
  lemma SumStep(s: seq<real>, i: int)
    requires 0 <= i < |s|
    ensures Sum(s[..i + 1]) == Sum(s[..i]) + s[i]
  {
    assert s[..i + 1][..i] == s[..i];
  }

  /** A sum of terms that all lie in [lo, hi] lies between |s|*lo and |s|*hi. */
  lemma {:induction false} SumBounds(s: seq<real>, lo: real, hi: real)
    requires forall i :: 0 <= i < |s| ==> lo <= s[i] <= hi
    ensures |s| as real * lo <= Sum(s) <= |s| as real * hi
  {
    if |s| > 0 {
      SumBounds(s[..|s| - 1], lo, hi);
    }
  }

  /** A sum of non-negative terms is non-negative. */
  lemma {:induction false} SumNonNegative(s: seq<real>)
    requires forall i :: 0 <= i < |s| ==> 0.0 <= s[i]
    ensures 0.0 <= Sum(s)
  {
    if |s| > 0 {
      SumNonNegative(s[..|s| - 1]);
    }
  }

  /** A term of a sum of non-negative terms is at most the sum. */
  lemma {:induction false} TermAtMostSum(s: seq<real>, k: int)
    requires forall i :: 0 <= i < |s| ==> 0.0 <= s[i]
    requires 0 <= k < |s|
    ensures s[k] <= Sum(s)
  {
    var n := |s| - 1;
    SumNonNegative(s[..n]);
    if k < n {
      TermAtMostSum(s[..n], k);
    }
  }

  /** Dividing every term by the same non-zero number divides the sum by it. */
  lemma {:induction false} SumScaled(s: seq<real>, t: seq<real>, d: real)
    requires |s| == |t| && d != 0.0
    requires forall i :: 0 <= i < |s| ==> t[i] == s[i] / d
    ensures Sum(t) == Sum(s) / d
  {
    if |s| > 0 {
      SumScaled(s[..|s| - 1], t[..|t| - 1], d);
    }
  }

  /** One step of `v += (target - v) * k`, the exponential approach used for
      the envelopes, the spin, the hover fade and the audio offsets. */
  function Ease(v: real, target: real, k: real): real
  {
    v + (target - v) * k
  }

  /** A rate in [0, 1] lands the eased value between where it was and its
      target; rate 1 lands it exactly on the target. */
  lemma EaseBetween(v: real, target: real, k: real)
    requires 0.0 <= k <= 1.0
    ensures Min(v, target) <= Ease(v, target, k) <= Max(v, target)
    ensures k == 1.0 ==> Ease(v, target, k) == target
  {
    if v <= target {
      ScaleDown(target - v, k);
    } else {
      ScaleDown(v - target, k);
    }
  }

  /** Scaling a non-negative number by a factor in [0, 1] keeps it in [0, d]. */
  lemma ScaleDown(d: real, k: real)
    requires 0.0 <= d && 0.0 <= k <= 1.0
    ensures 0.0 <= d * k <= d
    ensures 0.0 <= k * d <= d
  {
    MulMono(k, 1.0, d);
    MulMono(0.0, k, d);
  }

  /** One more step of an accumulation over a slice. */
  lemma SumSliceStep(s: seq<real>, lo: int, hi: int)
    requires 0 <= lo <= hi < |s|
    ensures Sum(s[lo..hi + 1]) == Sum(s[lo..hi]) + s[hi]
  {
    assert s[lo..hi + 1][..hi - lo] == s[lo..hi];
  }

  /** A quotient of a number in [0, t] by a positive t lies in [0, 1]. */
  lemma DivUnit(a: real, t: real)
    requires 0.0 <= a <= t && 0.0 < t
    ensures 0.0 <= a / t <= 1.0
  {
    var q := a / t;
    assert a == q * t;
    if q > 1.0 {
      MulStrict(1.0, q, t);
    }
    if q < 0.0 {
      MulStrict(q, 0.0, t);
    }
  }

  /** The mean of terms in [lo, hi] lies in [lo, hi]. */
  lemma MeanBounds(s: seq<real>, lo: real, hi: real)
    requires 0 < |s|
    requires forall i :: 0 <= i < |s| ==> lo <= s[i] <= hi
    ensures lo <= Sum(s) / |s| as real <= hi
  {
    var n := |s| as real;
    SumBounds(s, lo, hi);
    var q := Sum(s) / n;
    assert Sum(s) == q * n;
    if q < lo {
      MulStrict(q, lo, n);
    }
    if q > hi {
      MulStrict(hi, q, n);
    }
  }

  lemma DivSelf(t: real)
    requires t != 0.0
    ensures t / t == 1.0
  {
  }

  lemma MulNonNegative(a: real, b: real)
    ensures 0.0 <= a && 0.0 <= b ==> 0.0 <= a * b
  {
    if 0.0 <= a && 0.0 <= b {
      MulMono(0.0, a, b);
    }
  }

  /** Scaling by a non-negative `c` keeps `lo <= x <= hi`. */
  lemma MulBetween(c: real, lo: real, x: real, hi: real)
    requires 0.0 <= c && lo <= x <= hi
    ensures c * lo <= c * x <= c * hi
  {
    MulMono(lo, x, c);
    MulMono(x, hi, c);
  }

  /** A quadratic form with non-negative diagonal and `q^2 <= p r` takes no
      negative value. */
  lemma QuadraticFormNonNegative(p: real, q: real, r: real, x: real, y: real)
    requires 0.0 <= p && 0.0 <= r && q * q <= p * r
    ensures 0.0 <= p * x * x + 2.0 * q * x * y + r * y * y
  {
    var f := p * x * x + 2.0 * q * x * y + r * y * y;
    MulNonNegative(r, y * y);
    if p == 0.0 {
      if q != 0.0 {
        if q < 0.0 { MulStrict(q, 0.0, -q); } else { MulStrict(0.0, q, q); }
      }
      assert f == r * (y * y);
    } else {
      var w := p * x + q * y;
      MulNonNegative(p * r - q * q, y * y);
      assert p * f == w * w + (p * r - q * q) * (y * y);
      assert 0.0 <= p * f;
      if f < 0.0 {
        MulStrict(f, 0.0, p);
      }
    }
  }
}
