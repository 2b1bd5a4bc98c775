/** The 1 m squat's outlier-resistant knee minimum (squat-scoring-logic-1meter.js):
    a percentile of a numerically sorted copy of the knee angles seen during
    a rep, falling back to the plain minimum while there are few samples. */
module SquatStats {
  import opened Common

  predicate Sorted(xs: seq<real>)
  {
    forall i, j :: 0 <= i < j < |xs| ==> xs[i] <= xs[j]
  }

  /** Putting a value no larger than the head in front keeps a list sorted. */
  lemma ConsSorted(h: real, xs: seq<real>)
    requires Sorted(xs) && (xs != [] ==> h <= xs[0])
    ensures Sorted([h] + xs)
  {
    var r := [h] + xs;
    forall i, j | 0 <= i < j < |r|
      ensures r[i] <= r[j]
    {
      if i > 0 {
        assert r[i] == xs[i - 1] && r[j] == xs[j - 1];
      } else {
        assert r[j] == xs[j - 1];
        assert xs[0] <= xs[j - 1];
      }
    }
  }

  function Insert(x: real, xs: seq<real>): (r: seq<real>)
    requires Sorted(xs)
    ensures Sorted(r)
    ensures multiset(r) == multiset(xs) + multiset{x}
    ensures |r| == |xs| + 1
    ensures r[0] == if xs == [] then x else Min(x, xs[0])
  {
    if xs == [] then [x]
    else if x <= xs[0] then
      ConsSorted(x, xs);
      [x] + xs
    else
      assert Sorted(xs[1..]) by {
        forall i, j | 0 <= i < j < |xs[1..]|
          ensures xs[1..][i] <= xs[1..][j]
        {
          assert xs[1..][i] == xs[i + 1] && xs[1..][j] == xs[j + 1];
        }
      }
      var rest := Insert(x, xs[1..]);
      assert xs == [xs[0]] + xs[1..];
      assert xs[0] <= rest[0] by {
        if |xs| > 1 {
          assert xs[0] <= xs[1];
          assert xs[1..][0] == xs[1];
        }
      }
      ConsSorted(xs[0], rest);
      assert multiset([xs[0]] + rest) == multiset{xs[0]} + multiset(rest);
      assert multiset(xs) == multiset{xs[0]} + multiset(xs[1..]);
      [xs[0]] + rest
  }

  /** `values.slice().sort((a, b) => a - b)`: an ascending permutation. */
  function SortAscending(xs: seq<real>): (r: seq<real>)
    ensures Sorted(r)
    ensures multiset(r) == multiset(xs)
    ensures |r| == |xs|
  {
    if xs == [] then []
    else
      assert xs == [xs[0]] + xs[1..];
      Insert(xs[0], SortAscending(xs[1..]))
  }

  /** Index of the `p`-quantile in a sorted list of `n` values:
      `floor((n - 1) * p)` clamped to [0, n - 1]. */
  function PercentileIndex(n: nat, p: real): (i: nat)
    requires n > 0
    ensures i < n
    ensures p <= 0.0 ==> i == 0
    ensures p >= 1.0 ==> i == n - 1
  {
    var raw := ((n - 1) as real * p).Floor;
    assert p <= 0.0 ==> raw <= 0 by {
      if p <= 0.0 { MulMono(p, 0.0, (n - 1) as real); }
    }
    assert p >= 1.0 ==> raw >= n - 1 by {
      if p >= 1.0 { MulMono(1.0, p, (n - 1) as real); }
    }
    if raw > n - 1 then n - 1 else if raw < 0 then 0 else raw
  }

  /** `percentile(values, p)`: 999 for no values, otherwise an element of the
      input, namely the one at the clamped quantile index of the sorted copy. */
  function Percentile(values: seq<real>, p: real): (r: real)
    ensures values == [] ==> r == 999.0
    ensures values != [] ==> r in values
    ensures values != [] ==> r == SortAscending(values)[PercentileIndex(|values|, p)]
  {
    if values == [] then 999.0
    else
      var sorted := SortAscending(values);
      var v := sorted[PercentileIndex(|sorted|, p)];
      assert v in multiset(sorted);
      v
  }

  /** Every element of a list occurs in any permutation of it. */
  lemma PermutationHasElement(values: seq<real>, perm: seq<real>, i: nat)
    requires multiset(perm) == multiset(values) && i < |values|
    ensures exists j :: 0 <= j < |perm| && perm[j] == values[i]
  {
    assert values[i] in multiset(values);
    assert values[i] in perm;
  }

  /** Every value of a list is at least its 0-quantile and at most its
      1-quantile: the percentile at p <= 0 is the minimum, at p >= 1 the
      maximum. */
  lemma PercentileExtremes(values: seq<real>, p: real)
    requires values != []
    ensures p <= 0.0 ==> forall i :: 0 <= i < |values| ==> Percentile(values, p) <= values[i]
    ensures p >= 1.0 ==> forall i :: 0 <= i < |values| ==> values[i] <= Percentile(values, p)
  {
    var sorted := SortAscending(values);
    var idx := PercentileIndex(|values|, p);
    forall i | 0 <= i < |values|
      ensures sorted[0] <= values[i] <= sorted[|sorted| - 1]
    {
      PermutationHasElement(values, sorted, i);
      var j :| 0 <= j < |sorted| && sorted[j] == values[i];
      assert sorted[0] <= sorted[j] <= sorted[|sorted| - 1];
    }
  }

  /** `reduce((m, v) => Math.min(m, v), acc)` */
  function FoldMin(xs: seq<real>, acc: real): (r: real)
    ensures r <= acc
    ensures forall i :: 0 <= i < |xs| ==> r <= xs[i]
    ensures r == acc || r in xs
    decreases |xs|
  {
    if xs == [] then acc
    else
      var rest := FoldMin(xs[1..], Min(acc, xs[0]));
      assert forall i :: 1 <= i < |xs| ==> xs[i] == xs[1..][i - 1];
      rest
  }

  const ROBUST_MIN_SAMPLES: nat := 7
  const ROBUST_PERCENTILE: real := 0.15

  /** `robustKneeMin1m`: the plain minimum (999 when empty) for fewer than 7
      samples, the 15th percentile from 7 samples on. */
  function RobustKneeMin(angles: seq<real>): (r: real)
    ensures |angles| < ROBUST_MIN_SAMPLES ==>
      r <= 999.0 && (r == 999.0 || r in angles) &&
      forall i :: 0 <= i < |angles| ==> r <= angles[i]
    ensures |angles| >= ROBUST_MIN_SAMPLES ==> r in angles
  {
    if |angles| < ROBUST_MIN_SAMPLES then FoldMin(angles, 999.0)
    else Percentile(angles, ROBUST_PERCENTILE)
  }

  /** The robust minimum never reports an angle below every sample: a lower
      bound of all samples (and of the 999 start value) bounds it too. */
  lemma RobustKneeMinAboveLowerBound(angles: seq<real>, lo: real)
    requires lo <= 999.0
    requires forall i :: 0 <= i < |angles| ==> lo <= angles[i]
    ensures lo <= RobustKneeMin(angles)
  {
    var r := RobustKneeMin(angles);
    if r != 999.0 {
      assert r in angles;
      var i :| 0 <= i < |angles| && angles[i] == r;
    }
  }

  /** With exactly 7 samples the 15th-percentile index is floor(6 * 0.15) = 0,
      so the robust minimum is still the plain minimum. */
  lemma RobustKneeMinOfSevenIsMinimum(angles: seq<real>)
    requires |angles| == ROBUST_MIN_SAMPLES
    ensures forall i :: 0 <= i < |angles| ==> RobustKneeMin(angles) <= angles[i]
  {
    assert PercentileIndex(|angles|, ROBUST_PERCENTILE) == 0;
    PercentileExtremes(angles, 0.0);
  }

  /** From 8 samples on, a single sample lower than all the others (a one-frame
      glitch) is never reported as the knee minimum. */
  lemma RobustKneeMinIgnoresSingleLowSpike(angles: seq<real>, k: nat)
    requires |angles| >= ROBUST_MIN_SAMPLES + 1 && k < |angles|
    requires forall i :: 0 <= i < |angles| && i != k ==> angles[k] < angles[i]
    ensures RobustKneeMin(angles) != angles[k]
  {
    var v := angles[k];
    var sorted := SortAscending(angles);
    var idx := PercentileIndex(|angles|, ROBUST_PERCENTILE);
    assert idx >= 1 by {
      assert ((|angles| - 1) as real * ROBUST_PERCENTILE) >= 7.0 * 0.15 by {
        MulMono(7.0, (|angles| - 1) as real, ROBUST_PERCENTILE);
      }
    }
    SingleOccurrence(angles, k);
    forall i | 0 <= i < |sorted| && sorted[i] != v
      ensures v < sorted[i]
    {
      PermutationHasElement(sorted, angles, i);
    }
    UniqueMinimumFirst(sorted, v);
  }

  /** A value strictly below every other element occurs exactly once. */
  lemma SingleOccurrence(xs: seq<real>, k: nat)
    requires k < |xs|
    requires forall i :: 0 <= i < |xs| && i != k ==> xs[k] < xs[i]
    ensures multiset(xs)[xs[k]] == 1
  {
    var v := xs[k];
    assert xs == xs[..k] + [v] + xs[k + 1..];
    assert v !in xs[..k] && v !in xs[k + 1..];
    assert multiset(xs) == multiset(xs[..k]) + multiset{v} + multiset(xs[k + 1..]);
  }

  /** In a sorted list, a value occurring once and below every other
      element sits at index 0 and nowhere else. */
  lemma UniqueMinimumFirst(sorted: seq<real>, v: real)
    requires Sorted(sorted) && multiset(sorted)[v] == 1
    requires forall i :: 0 <= i < |sorted| && sorted[i] != v ==> v < sorted[i]
    ensures forall i :: 1 <= i < |sorted| ==> sorted[i] != v
  {
    assert v in sorted;
    var j :| 0 <= j < |sorted| && sorted[j] == v;
    assert sorted[0] <= v;
    assert sorted[0] == v;
    assert sorted == [sorted[0]] + sorted[1..];
    assert multiset(sorted[1..])[v] == 0;
    forall i | 1 <= i < |sorted|
      ensures sorted[i] != v
    {
      assert sorted[i] == sorted[1..][i - 1];
    }
  }
}
