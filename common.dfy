/** Numeric helpers shared by every evaluator: JavaScript's Math.min/max,
    the `clamp`, `scale01`/`lerp01` and `Math.round` idioms, and sums. */
module Common {

  datatype Option<T> = None | Some(value: T)

  function Abs(x: real): (r: real)
    ensures r >= 0.0 && (r == x || r == -x)
  {
    if x < 0.0 then -x else x
  }

  function Min(a: real, b: real): (r: real)
    ensures r <= a && r <= b && (r == a || r == b)
  {
    if a <= b then a else b
  }

  function Max(a: real, b: real): (r: real)
    ensures r >= a && r >= b && (r == a || r == b)
  {
    if a >= b then a else b
  }

  /** `a <= r <= b` or `b <= r <= a`. */
  predicate Between(a: real, b: real, r: real)
  {
    Min(a, b) <= r <= Max(a, b)
  }

  /** `Math.min(hi, Math.max(lo, v))` */
  function Clamp(v: real, lo: real, hi: real): (r: real)
    ensures lo <= hi ==> lo <= r <= hi
    ensures lo <= v <= hi ==> r == v
    ensures lo <= hi && v <= lo ==> r == lo
    ensures lo <= hi && v >= hi ==> r == hi
  {
    Min(hi, Max(lo, v))
  }

  /** `scale01` / `lerp01`: position of `value` between `lo` and `hi`, clamped to [0,1];
      0 when the band is empty. */
  function Scale01(value: real, lo: real, hi: real): (r: real)
    ensures 0.0 <= r <= 1.0
    ensures lo < hi && value <= lo ==> r == 0.0
    ensures lo < hi && value >= hi ==> r == 1.0
    ensures hi == lo ==> r == 0.0
  {
    if hi == lo then 0.0
    else
      var t := (value - lo) / (hi - lo);
      assert lo < hi && value <= lo ==> t <= 0.0 by {
        if lo < hi && value <= lo { DivNonPos(value - lo, hi - lo); }
      }
      assert lo < hi && value >= hi ==> t >= 1.0 by {
        if lo < hi && value >= hi { DivAtLeastOne(value - lo, hi - lo); }
      }
      Clamp(t, 0.0, 1.0)
  }

  lemma DivMonotone(a: real, b: real, c: real)
    requires a <= b && c > 0.0
    ensures a / c <= b / c
  {
  }

  /** `scale01` over a proper band never decreases as its value grows. */
  lemma Scale01Monotone(v1: real, v2: real, lo: real, hi: real)
    requires v1 <= v2 && lo < hi
    ensures Scale01(v1, lo, hi) <= Scale01(v2, lo, hi)
  {
    DivMonotone(v1 - lo, v2 - lo, hi - lo);
  }

  lemma DivNonPos(a: real, b: real)
    requires a <= 0.0 && b > 0.0
    ensures a / b <= 0.0
  {
    assert (a / b) * b == a;
  }

  lemma DivAtLeastOne(a: real, b: real)
    requires a >= b && b > 0.0
    ensures a / b >= 1.0
  {
    assert (a / b) * b == a;
  }

  lemma MulMono(a: real, b: real, w: real)
    requires a <= b && w >= 0.0
    ensures a * w <= b * w
  {
    assert b * w - a * w == (b - a) * w;
    assert (b - a) * w >= 0.0;
  }

  lemma MulStrict(a: real, b: real, w: real)
    requires a < b && w > 0.0
    ensures a * w < b * w
  {
    assert b * w - a * w == (b - a) * w;
  }

  lemma DivLower(x: real, lo: real, s: real)
    requires s > 0.0 && x >= lo * s
    ensures x / s >= lo
  {
    assert (x / s) * s == x;
    if x / s < lo {
      MulStrict(x / s, lo, s);
    }
  }

  lemma DivUpper(x: real, hi: real, s: real)
    requires s > 0.0 && x <= hi * s
    ensures x / s <= hi
  {
    assert (x / s) * s == x;
    if x / s > hi {
      MulStrict(hi, x / s, s);
    }
  }

  /** A mean of `a` and `b` with non-negative weights lies between them. */
  lemma WeightedMeanBetween(a: real, b: real, wa: real, wb: real)
    requires wa >= 0.0 && wb >= 0.0 && wa + wb > 0.0
    ensures Min(a, b) <= (a * wa + b * wb) / (wa + wb) <= Max(a, b)
  {
    var lo, hi := Min(a, b), Max(a, b);
    MulMono(lo, a, wa);
    MulMono(a, hi, wa);
    MulMono(lo, b, wb);
    MulMono(b, hi, wb);
    assert lo * (wa + wb) == lo * wa + lo * wb;
    assert hi * (wa + wb) == hi * wa + hi * wb;
    DivLower(a * wa + b * wb, lo, wa + wb);
    DivUpper(a * wa + b * wb, hi, wa + wb);
  }

  /** `lerp(a, b, t)`: the point a fraction `t` of the way from `a` to `b`. */
  function Lerp(a: real, b: real, t: real): (r: real)
    ensures 0.0 <= t <= 1.0 && a <= b ==> a <= r <= b
    ensures 0.0 <= t <= 1.0 && b <= a ==> b <= r <= a
  {
    MulUnit(b - a, t);
    a + (b - a) * t
  }

  /** A fraction `t` in [0, 1] of `d` lies between 0 and `d`. */
  lemma MulUnit(d: real, t: real)
    ensures 0.0 <= t <= 1.0 && d >= 0.0 ==> 0.0 <= d * t <= d
    ensures 0.0 <= t <= 1.0 && d <= 0.0 ==> d <= d * t <= 0.0
  {
    if 0.0 <= t <= 1.0 && d >= 0.0 {
      assert d * t <= d * 1.0;
    }
    if 0.0 <= t <= 1.0 && d <= 0.0 {
      assert d * t >= d * 1.0;
    }
  }

  /** JavaScript `Math.round`: halves round towards +infinity. */
  function Round(x: real): (r: int)
    ensures x - 0.5 < r as real <= x + 0.5
  {
    (x + 0.5).Floor
  }

  lemma RoundMonotone(x: real, y: real)
    requires x <= y
    ensures Round(x) <= Round(y)
  {
  }

  /** Rounding a value in [lo, hi] with integral bounds stays in [lo, hi]. */
  lemma RoundWithin(x: real, lo: int, hi: int)
    requires lo as real <= x <= hi as real
    ensures lo <= Round(x) <= hi
  {
  }

  /** `Math.round(x * 10^k) / 10^k` for the given scale `10^k`. */
  function RoundTo(x: real, scale: real): (r: real)
    requires scale > 0.0
    ensures x - 0.5 / scale < r <= x + 0.5 / scale
  {
    var n := Round(x * scale);
    assert (n as real) / scale > (x * scale - 0.5) / scale;
    n as real / scale
  }

  function Sum(xs: seq<real>): real
  {
    if xs == [] then 0.0 else Sum(xs[..|xs| - 1]) + xs[|xs| - 1]
  }

  /** A sum of terms in [0, 1] lies in [0, n]. */
  lemma {:induction false} SumUnitBounds(xs: seq<real>)
    requires forall i :: 0 <= i < |xs| ==> 0.0 <= xs[i] <= 1.0
    ensures 0.0 <= Sum(xs) <= |xs| as real
  {
    if xs != [] {
      SumUnitBounds(xs[..|xs| - 1]);
    }
  }

  /** A sum of non-negative terms is non-negative. */
  lemma {:induction false} SumNonNegative(xs: seq<real>)
    requires forall i :: 0 <= i < |xs| ==> 0.0 <= xs[i]
    ensures 0.0 <= Sum(xs)
  {
    if xs != [] {
      SumNonNegative(xs[..|xs| - 1]);
    }
  }

  /** The mean of values in [lo, hi] lies in [lo, hi]. */
  lemma {:induction false} SumBounds(xs: seq<real>, lo: real, hi: real)
    requires forall i :: 0 <= i < |xs| ==> lo <= xs[i] <= hi
    ensures lo * |xs| as real <= Sum(xs) <= hi * |xs| as real
  {
    if xs != [] {
      SumBounds(xs[..|xs| - 1], lo, hi);
      assert lo * |xs| as real == lo * (|xs| - 1) as real + lo;
      assert hi * |xs| as real == hi * (|xs| - 1) as real + hi;
    }
  }

  /** JavaScript truthiness of a `performance.now()` start time held in a
      variable that is `null` when no test runs: 0 counts as not started. */
  predicate Truthy(t: Option<real>)
  {
    t.Some? && t.value != 0.0
  }
}
