/** Per-rep form scores and the final squat score (`formScore1mProgressive`,
    `formScore2m` and the two `finalScore`s). The two distance modes differ
    only in the hip-depth threshold: 0.09 at 1 m and 0.06 at 2 m. */
module SquatForm {
  import opened Common

  /** One entry of `repData`. The captured best frame is not modelled. */
  datatype Rep = Rep(
    kneeMin: real,
    hipDepth: real,
    sym: real,
    heel: bool,
    heelSeverity: real,
    staggeredStance: bool,
    staggeredSeverity: real,
    shoulderAngle: Option<real>,
    form: real)

  const HIP_THR_1M: real := 0.09
  const HIP_THR_2M: real := 0.06

  /** Knee quality: 0 from 130 degrees up, 1 from 45 degrees down, linear between. */
  function KneeQuality(knee: real): (q: real)
    ensures 0.0 <= q <= 1.0
    ensures q == 0.0 <==> knee >= 130.0
    ensures q == 1.0 <==> knee <= 45.0
  {
    if knee >= 130.0 then 0.0
    else if knee <= 45.0 then 1.0
    else
      assert 0.0 < (130.0 - knee) / (130.0 - 45.0) < 1.0 by {
        DivLower(130.0 - knee, 0.0, 85.0);
        DivUpper(130.0 - knee, 1.0, 85.0);
        assert (130.0 - knee) / 85.0 != 0.0 && (130.0 - knee) / 85.0 != 1.0;
      }
      Clamp((130.0 - knee) / (130.0 - 45.0), 0.0, 1.0)
  }

  /** A deeper squat never scores a worse knee quality. */
  lemma {:induction false} KneeQualityMonotone(deeper: real, shallower: real)
    requires deeper <= shallower
    ensures KneeQuality(deeper) >= KneeQuality(shallower)
  {
    if 45.0 < deeper && shallower < 130.0 {
      assert (130.0 - deeper) / 85.0 >= (130.0 - shallower) / 85.0;
    }
  }

  /** Hip quality is all or nothing at the mode's depth threshold. */
  function HipQuality(hip: real, hipThr: real): (q: real)
    ensures q == 1.0 <==> hip <= hipThr
    ensures q == 0.0 <==> hip > hipThr
  {
    if hip <= hipThr then 1.0 else 0.0
  }

  /** Symmetry quality: 1 for a level, upright torso, 0 from 0.25 on. */
  function SymQuality(sym: real): (q: real)
    ensures 0.0 <= q <= 1.0
    ensures sym <= 0.0 ==> q == 1.0
    ensures sym >= 0.25 ==> q == 0.0
  {
    1.0 - Scale01(sym, 0.0, 0.25)
  }

  function HeelQuality(severity: real): (q: real)
    ensures 0.0 <= q <= 1.0
    ensures severity <= 0.0 ==> q == 1.0
    ensures severity >= 1.0 ==> q == 0.0
  {
    1.0 - Clamp(severity, 0.0, 1.0)
  }

  /** Both the knee (100 degrees or more) and the hip (deeper than the
      threshold) stayed shallow. */
  predicate TooShallowForForm(r: Rep, hipThr: real)
  {
    r.kneeMin >= 100.0 && r.hipDepth > hipThr
  }

  predicate StaggerCapped(r: Rep)
  {
    r.staggeredStance && r.staggeredSeverity > 0.0
  }

  /** Mean of the knee, hip, symmetry and heel qualities: 1 exactly for a
      full-depth, level, flat-footed rep. */
  function QualityMean(r: Rep, hipThr: real): (q: real)
    ensures 0.0 <= q <= 1.0
    ensures r.kneeMin <= 45.0 && r.hipDepth <= hipThr && r.sym <= 0.0 && r.heelSeverity <= 0.0 ==> q == 1.0
    ensures q == 1.0 ==> r.kneeMin <= 45.0 && r.hipDepth <= hipThr
  {
    Clamp((KneeQuality(r.kneeMin) + HipQuality(r.hipDepth, hipThr) +
           SymQuality(r.sym) + HeelQuality(r.heelSeverity)) / 4.0, 0.0, 1.0)
  }

  /** `formScore1mProgressive` (hipThr 0.09) and `formScore2m` (hipThr 0.06):
      the mean of the four qualities, quartered for a rep shallow at both
      knee and hip, and capped at 0.30 - 0.10 * severity for a staggered rep. */
  function FormScore(r: Rep, hipThr: real): (f: real)
    ensures f <= 1.0
    ensures !StaggerCapped(r) ==> f >= 0.0
    ensures r.staggeredSeverity <= 1.0 ==> f >= 0.0
    ensures TooShallowForForm(r, hipThr) ==> f <= 0.25
    ensures StaggerCapped(r) ==> f <= 0.30 - 0.10 * r.staggeredSeverity
    ensures !TooShallowForForm(r, hipThr) && !StaggerCapped(r) ==> f == QualityMean(r, hipThr)
    ensures TooShallowForForm(r, hipThr) && !StaggerCapped(r) ==> f == QualityMean(r, hipThr) * 0.25
  {
    var formScore := QualityMean(r, hipThr);
    var shallow := if TooShallowForForm(r, hipThr) then formScore * 0.25 else formScore;
    if StaggerCapped(r) then Min(shallow, 0.30 - r.staggeredSeverity * 0.10) else shallow
  }

  /** A rep counted as shallow by the final score (knee 130 or more and hip
      deeper than the threshold). */
  predicate ShallowRep(r: Rep, hipThr: real)
  {
    r.kneeMin >= 130.0 && r.hipDepth > hipThr
  }

  function ShallowCount(reps: seq<Rep>, hipThr: real): (c: nat)
    ensures c <= |reps|
  {
    if reps == [] then 0
    else ShallowCount(reps[..|reps| - 1], hipThr) + (if ShallowRep(reps[|reps| - 1], hipThr) then 1 else 0)
  }

  function Forms(reps: seq<Rep>): (fs: seq<real>)
    ensures |fs| == |reps|
    ensures forall i :: 0 <= i < |reps| ==> fs[i] == reps[i].form
  {
    seq(|reps|, i requires 0 <= i < |reps| => reps[i].form)
  }

  const TARGET_REPS: nat := 5

  /** The unrounded total: completion (30 points for five reps, half a rep's
      share lost per shallow rep) plus form (70 points for five perfect reps). */
  function RawTotal(reps: seq<Rep>, hipThr: real): real
  {
    var n := |reps| as real;
    var shallow := ShallowCount(reps, hipThr) as real;
    var comp := (n / 5.0) * 30.0 - (shallow / 5.0) * 30.0 * 0.5;
    var form := (Sum(Forms(reps)) / 5.0) * 70.0;
    comp + form
  }

  /** `finalScore()` of both modes: 0 with no reps, otherwise the total
      rounded to hundredths. */
  function FinalScore(reps: seq<Rep>, hipThr: real): (s: real)
    ensures reps == [] ==> s == 0.0
    ensures reps != [] ==> RawTotal(reps, hipThr) - 0.005 < s <= RawTotal(reps, hipThr) + 0.005
  {
    if reps == [] then 0.0
    else RoundTo(RawTotal(reps, hipThr), 100.0)
  }

  predicate FormsInUnit(reps: seq<Rep>)
  {
    forall i :: 0 <= i < |reps| ==> 0.0 <= reps[i].form <= 1.0
  }

  /** With forms in [0, 1] each rep is worth between 3 and 20 points, so the
      final score of at most five reps lies in [0, 100]. */
  lemma FinalScoreBounds(reps: seq<Rep>, hipThr: real)
    requires FormsInUnit(reps)
    ensures 0.0 <= FinalScore(reps, hipThr) <= 20.0 * |reps| as real
    ensures |reps| <= TARGET_REPS ==> FinalScore(reps, hipThr) <= 100.0
  {
    if reps != [] {
      var n := |reps|;
      SumUnitBounds(Forms(reps));
      var total := RawTotal(reps, hipThr);
      assert 0.0 <= total <= 20.0 * n as real;
      RoundWithin(total * 100.0, 0, 2000 * n);
    }
  }

  /** Five full-form, non-shallow reps give exactly 100. */
  lemma FinalScorePerfect(reps: seq<Rep>, hipThr: real)
    requires |reps| == TARGET_REPS
    requires forall i :: 0 <= i < |reps| ==> reps[i].form == 1.0 && !ShallowRep(reps[i], hipThr)
    ensures FinalScore(reps, hipThr) == 100.0
  {
    assert ShallowCount(reps, hipThr) == 0 by {
      ShallowCountNone(reps, hipThr);
    }
    SumUnitBounds(Forms(reps));
    SumBounds(Forms(reps), 1.0, 1.0);
    assert RawTotal(reps, hipThr) == 100.0;
  }

  lemma {:induction false} ShallowCountNone(reps: seq<Rep>, hipThr: real)
    requires forall i :: 0 <= i < |reps| ==> !ShallowRep(reps[i], hipThr)
    ensures ShallowCount(reps, hipThr) == 0
  {
    if reps != [] {
      ShallowCountNone(reps[..|reps| - 1], hipThr);
    }
  }
}
