/** The back-facing orientation gate of squat-orientation-tracker.js: two
    pure measurements of how the user faces the camera, and a tracker whose
    `backScore` rises on back-facing frames and decays on the others. */
module Orientation {
  import opened Common
  import opened Geometry

  const NOSE: nat := 0
  const LEFT_EYE: nat := 2
  const RIGHT_EYE: nat := 5
  const LEFT_EAR: nat := 7
  const LEFT_SHOULDER: nat := 11
  const RIGHT_SHOULDER: nat := 12
  const LEFT_HIP: nat := 23
  const RIGHT_HIP: nat := 24

  /** `vis(p)`: the visibility of a landmark, 1 when it has none and also
      when the landmark itself is missing. */
  function Vis(p: Option<Landmark>): (v: real)
    ensures p.None? ==> v == 1.0
  {
    match p
    case None => 1.0
    case Some(l) => VisOr(l, 1.0)
  }

  predicate TorsoSeen(lm: Frame)
  {
    Get(lm, LEFT_SHOULDER).Some? && Get(lm, RIGHT_SHOULDER).Some? &&
    Get(lm, LEFT_HIP).Some? && Get(lm, RIGHT_HIP).Some?
  }

  /** Vertical distance between the shoulder and hip midpoints. */
  function TorsoHeight(lm: Frame): (h: real)
    requires TorsoSeen(lm)
    ensures h >= 0.0
  {
    var ls, rs := Get(lm, LEFT_SHOULDER).value, Get(lm, RIGHT_SHOULDER).value;
    var lh, rh := Get(lm, LEFT_HIP).value, Get(lm, RIGHT_HIP).value;
    Abs((ls.y + rs.y) / 2.0 - (lh.y + rh.y) / 2.0)
  }

  const MIN_TORSO: real := 0.08
  const SIDEWAYS_RATIO: real := 0.55

  /** Shoulder width per unit of torso height below 0.55: seen side-on. */
  predicate SidewaysLike(lm: Frame): (r: bool)
    requires TorsoSeen(lm) && TorsoHeight(lm) >= MIN_TORSO
    ensures r <==> Abs(Get(lm, LEFT_SHOULDER).value.x - Get(lm, RIGHT_SHOULDER).value.x) <
                   SIDEWAYS_RATIO * TorsoHeight(lm)
  {
    var ls, rs := Get(lm, LEFT_SHOULDER).value, Get(lm, RIGHT_SHOULDER).value;
    Abs(ls.x - rs.x) / TorsoHeight(lm) < SIDEWAYS_RATIO
  }

  /** The measurement record; the debug numbers it also carries are not
      modelled. */
  datatype Measurement = Measurement(valid: bool, backSuspect: bool, hardBackSuspect: bool)

  /** `measureBackFacingLike(lm)`. Invalid without both shoulders and hips or
      with a torso under 0.08 high. A side-on body seen well (every torso
      visibility above 0.35) whose right shoulder lies more than 0.02 to the
      right of the left one is a hard suspect. The secondary test (face
      hidden, weak depth and visibility cues) also demands the flipped
      shoulders, so it never adds a suspect of its own (`BackSuspectIsHard`). */
  function MeasureBackFacingLike(lm: Frame): (m: Measurement)
    ensures !m.valid <==> !TorsoSeen(lm) || TorsoHeight(lm) < MIN_TORSO
    ensures !m.valid ==> !m.backSuspect && !m.hardBackSuspect
  {
    if !TorsoSeen(lm) then Measurement(false, false, false)
    else if TorsoHeight(lm) < MIN_TORSO then Measurement(false, false, false)
    else
      var ls, rs := Get(lm, LEFT_SHOULDER), Get(lm, RIGHT_SHOULDER);
      var lh, rh := Get(lm, LEFT_HIP), Get(lm, RIGHT_HIP);
      var sideways := SidewaysLike(lm);
      var flipped := rs.value.x > ls.value.x + 0.02;
      var faceVis := Max(Max(Vis(Get(lm, NOSE)), Vis(Get(lm, LEFT_EYE))), Vis(Get(lm, RIGHT_EYE)));
      var bodyVis := Min(Min(Vis(ls), Vis(rs)), Min(Vis(lh), Vis(rh)));
      var zAbs := Max(Abs(ls.value.z - rs.value.z), Abs(lh.value.z - rh.value.z));
      var visAbs := Max(Abs(Vis(rs) - Vis(ls)), Abs(Vis(rh) - Vis(lh)));
      var hard := sideways && bodyVis > 0.35 && flipped;
      var faceLow := faceVis < 0.35;
      var dominanceWeak := zAbs < 0.08 && visAbs < 0.25;
      var back := hard || (sideways && bodyVis > 0.35 && faceLow && dominanceWeak && flipped);
      Measurement(true, back, hard)
  }

  /** Every back-facing suspect is a hard one, and a hard suspect needs a
      valid, side-on frame with the shoulders flipped. */
  lemma BackSuspectIsHard(lm: Frame)
    ensures var m := MeasureBackFacingLike(lm);
      m.backSuspect <==> m.hardBackSuspect
    ensures var m := MeasureBackFacingLike(lm);
      m.hardBackSuspect ==>
        (m.valid && SidewaysLike(lm) &&
         Get(lm, RIGHT_SHOULDER).value.x > Get(lm, LEFT_SHOULDER).value.x + 0.02)
  {
  }

  /** Why `estimateRightShoulderShown` accepted or rejected the frame. */
  datatype ShownReason = MissingBody | TinyTorso | NotSideways | ShouldersFlipped | Accepted | Uncertain

  datatype ShoulderShown = ShoulderShown(ok: bool, valid: bool, reason: ShownReason)

  /** The nose and left ear both seen well enough to read the head's turn. */
  predicate FaceCueValid(lm: Frame)
  {
    Get(lm, NOSE).Some? && Get(lm, LEFT_EAR).Some? &&
    Vis(Get(lm, NOSE)) > 0.35 && Vis(Get(lm, LEFT_EAR)) > 0.30
  }

  /** The nose below 0.30 or the best of nose and eyes below 0.35. */
  predicate FaceMissing(lm: Frame)
  {
    var faceVis := Max(Max(Vis(Get(lm, NOSE)), Vis(Get(lm, LEFT_EYE))), Vis(Get(lm, RIGHT_EYE)));
    Vis(Get(lm, NOSE)) < 0.30 || faceVis < 0.35
  }

  /** `estimateRightShoulderShown(lm)`: a side-on frame showing the right
      shoulder from the front. It is accepted only with the right shoulder
      clearly left of the left one, the face visible, and either the head
      turned left or, with a readable face, a strong depth or visibility cue
      favouring the right side. */
  function EstimateRightShoulderShown(lm: Frame): (r: ShoulderShown)
    ensures !TorsoSeen(lm) ==> r == ShoulderShown(false, false, MissingBody)
    ensures r.valid <==> TorsoSeen(lm) && TorsoHeight(lm) >= MIN_TORSO
  {
    if !TorsoSeen(lm) then ShoulderShown(false, false, MissingBody)
    else if TorsoHeight(lm) < MIN_TORSO then ShoulderShown(false, false, TinyTorso)
    else if !SidewaysLike(lm) then ShoulderShown(false, true, NotSideways)
    else
      var ls, rs := Get(lm, LEFT_SHOULDER), Get(lm, RIGHT_SHOULDER);
      var lh, rh := Get(lm, LEFT_HIP), Get(lm, RIGHT_HIP);
      if !(rs.value.x < ls.value.x - 0.02) then ShoulderShown(false, true, ShouldersFlipped)
      else
        var lookingLeft := FaceCueValid(lm) && Get(lm, LEFT_EAR).value.x < Get(lm, NOSE).value.x;
        var shoulderZ, hipZ := ls.value.z - rs.value.z, lh.value.z - rh.value.z;
        var zStrong := shoulderZ > 0.10 || hipZ > 0.10;
        var zModerate := shoulderZ > 0.06 || hipZ > 0.06;
        var shoulderVis, hipVis := Vis(rs) - Vis(ls), Vis(rh) - Vis(lh);
        var visStrong := shoulderVis > 0.32 || hipVis > 0.32;
        var visModerate := shoulderVis > 0.20 || hipVis > 0.20;
        var ok := !FaceMissing(lm) &&
          (lookingLeft || (FaceCueValid(lm) && (zStrong || visStrong || (zModerate && visModerate))));
        ShoulderShown(ok, true, if ok then Accepted else Uncertain)
  }

  /** An accepted frame is valid and side-on, has the right shoulder more
      than 0.02 left of the left one, a visible face and a readable head
      turn; flipped shoulders or a missing face always reject it. */
  lemma RightShoulderShownNeedsFrontView(lm: Frame)
    ensures var r := EstimateRightShoulderShown(lm);
      r.ok ==>
        (r.valid && SidewaysLike(lm) &&
         Get(lm, RIGHT_SHOULDER).value.x < Get(lm, LEFT_SHOULDER).value.x - 0.02 &&
         !FaceMissing(lm) && FaceCueValid(lm))
    ensures FaceMissing(lm) ==> !EstimateRightShoulderShown(lm).ok
    ensures TorsoSeen(lm) && TorsoHeight(lm) >= MIN_TORSO && SidewaysLike(lm) &&
            Get(lm, RIGHT_SHOULDER).value.x >= Get(lm, LEFT_SHOULDER).value.x - 0.02 ==>
      EstimateRightShoulderShown(lm) == ShoulderShown(false, true, ShouldersFlipped)
  {
  }

  // --------------------------------------------------------------- tracker

  const DEFAULT_CONFIRM_FRAMES: real := 3.0
  const DEFAULT_MAX_SCORE: real := 6.0

  /** `backScore` after one `update`: a hard suspect jumps to the maximum, a
      soft suspect adds one up to the maximum, anything else (an invalid
      measurement included) takes one off, down to 0. */
  function ScoreStep(score: real, maxScore: real, m: Measurement): (r: real)
    ensures 0.0 <= score && r > score ==> m.valid && m.backSuspect
    ensures m.valid && m.backSuspect && 0.0 <= score <= maxScore ==> score <= r
    ensures m.valid && m.backSuspect && score < maxScore ==> r >= Min(maxScore, score + 1.0)
  {
    if !m.valid then Max(0.0, score - 1.0)
    else if m.backSuspect then
      if m.hardBackSuspect then maxScore else Min(maxScore, score + 1.0)
    else Max(0.0, score - 1.0)
  }

  /** With a non-negative maximum the score never leaves [0, maxScore]. */
  lemma ScoreStepBounds(score: real, maxScore: real, m: Measurement)
    requires 0.0 <= score <= maxScore
    ensures 0.0 <= ScoreStep(score, maxScore, m) <= maxScore
  {
  }

  /** A hard suspect sets the maximum; a frame that is not a suspect lowers
      the score by one, floored at 0. */
  lemma ScoreStepCases(score: real, maxScore: real, m: Measurement)
    ensures m.valid && m.hardBackSuspect && m.backSuspect ==> ScoreStep(score, maxScore, m) == maxScore
    ensures !m.valid || !m.backSuspect ==>
      ScoreStep(score, maxScore, m) == if score >= 1.0 then score - 1.0 else 0.0
    ensures m.valid && m.backSuspect && !m.hardBackSuspect ==>
      ScoreStep(score, maxScore, m) == Min(maxScore, score + 1.0)
  {
  }

  /** The score after a run of frames. */
  function ScoreRun(score: real, maxScore: real, lms: seq<Frame>): real
    decreases |lms|
  {
    if lms == [] then score
    else ScoreRun(ScoreStep(score, maxScore, MeasureBackFacingLike(lms[0])), maxScore, lms[1..])
  }

  /** Bounds hold after any run of updates. */
  lemma {:induction false} ScoreRunBounds(score: real, maxScore: real, lms: seq<Frame>)
    requires 0.0 <= score <= maxScore
    ensures 0.0 <= ScoreRun(score, maxScore, lms) <= maxScore
    decreases |lms|
  {
    if lms != [] {
      ScoreStepBounds(score, maxScore, MeasureBackFacingLike(lms[0]));
      ScoreRunBounds(ScoreStep(score, maxScore, MeasureBackFacingLike(lms[0])), maxScore, lms[1..]);
    }
  }

  predicate NoSuspect(lms: seq<Frame>)
  {
    forall i :: 0 <= i < |lms| ==> !MeasureBackFacingLike(lms[i]).backSuspect
  }

  /** A run of frames without a suspect decays the score by one per frame,
      down to 0: after a hard suspect (score `maxScore`) the gate reopens
      only after `maxScore - confirmFrames + 1` clean frames. */
  lemma {:induction false} ScoreRunDecays(score: real, maxScore: real, lms: seq<Frame>)
    requires 0.0 <= score && NoSuspect(lms)
    ensures ScoreRun(score, maxScore, lms) == Max(0.0, score - |lms| as real)
    decreases |lms|
  {
    if lms != [] {
      var m := MeasureBackFacingLike(lms[0]);
      assert !m.backSuspect;
      var next := ScoreStep(score, maxScore, m);
      assert next == Max(0.0, score - 1.0);
      assert NoSuspect(lms[1..]) by {
        forall i | 0 <= i < |lms[1..]|
          ensures !MeasureBackFacingLike(lms[1..][i]).backSuspect
        {
          assert lms[1..][i] == lms[i + 1];
        }
      }
      ScoreRunDecays(next, maxScore, lms[1..]);
      var n := |lms| as real;
      assert |lms[1..]| as real == n - 1.0;
      assert ScoreRun(score, maxScore, lms) == Max(0.0, next - (n - 1.0));
      if score >= 1.0 {
        assert next - (n - 1.0) == score - n;
      } else {
        assert next == 0.0 && n >= 1.0;
      }
    }
  }

  /** The `{ ok, backConfirmed, measurement }` record `update` returns. */
  datatype UpdateResult = UpdateResult(ok: bool, backConfirmed: bool, measurement: Measurement)

  /** `createSquatOrientationTracker(options)`: the closure's `state` object
      and the two options, each falling back to its default when not given
      as a number. */
  class OrientationTracker {
    const confirmFrames: real
    const maxScore: real
    var backScore: real
    var last: Option<Measurement>

    /** With a non-negative maximum the score lies in [0, maxScore]. */
    predicate Valid()
      reads this
    {
      maxScore >= 0.0 ==> 0.0 <= backScore <= maxScore
    }

    constructor (confirmOption: Option<real>, maxOption: Option<real>)
      ensures confirmFrames == if confirmOption.Some? then confirmOption.value else DEFAULT_CONFIRM_FRAMES
      ensures maxScore == if maxOption.Some? then maxOption.value else DEFAULT_MAX_SCORE
      ensures backScore == 0.0 && last == None
      ensures Valid()
    {
      confirmFrames := if confirmOption.Some? then confirmOption.value else DEFAULT_CONFIRM_FRAMES;
      maxScore := if maxOption.Some? then maxOption.value else DEFAULT_MAX_SCORE;
      backScore := 0.0;
      last := None;
    }

    /** `reset()` */
    method Reset()
      modifies this
      ensures backScore == 0.0 && last == None
      ensures Valid()
    {
      backScore := 0.0;
      last := None;
    }

    /** `update(lm)` */
    method Update(lm: Frame) returns (r: UpdateResult)
      requires Valid()
      modifies this
      ensures backScore == ScoreStep(old(backScore), maxScore, MeasureBackFacingLike(lm))
      ensures last == Some(MeasureBackFacingLike(lm))
      ensures r == UpdateResult(IsOk(), IsBackConfirmed(), MeasureBackFacingLike(lm))
      ensures Valid()
    {
      var m := MeasureBackFacingLike(lm);
      last := Some(m);
      if !m.valid {
        backScore := Max(0.0, backScore - 1.0);
        return UpdateResult(backScore < confirmFrames, backScore >= confirmFrames, m);
      }
      if m.backSuspect {
        backScore := if m.hardBackSuspect then maxScore else Min(maxScore, backScore + 1.0);
      } else {
        backScore := Max(0.0, backScore - 1.0);
      }
      var backConfirmed := backScore >= confirmFrames;
      r := UpdateResult(!backConfirmed, backConfirmed, m);
    }

    /** `isOk()` */
    function IsOk(): (ok: bool)
      reads this
      ensures ok <==> backScore < confirmFrames
      ensures ok <==> !IsBackConfirmed()
    {
      backScore < confirmFrames
    }

    /** `isBackConfirmed()` */
    function IsBackConfirmed(): bool
      reads this
    {
      backScore >= confirmFrames
    }
  }
}
