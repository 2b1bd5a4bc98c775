/** Per-frame squat measurements of squat-pose-detection-1meter.js and
    squat-pose-detection-2meter.js: the knee angle and its UP/MID/DOWN
    classification, hip depth, left/right symmetry and the heel-lift pose
    test. Both files carry the same `angle` (`Geometry.Angle`); they differ
    in how the two legs' angles are combined and in the heel test. */
module SquatPose {
  import opened Common
  import opened Geometry

  datatype Phase = Up | Mid | Down | Unknown

  /** The `{ state, ang, valid }` record both `squatState` variants return. */
  datatype SquatReading = SquatReading(state: Phase, ang: real, valid: bool)

  const DOWN_BELOW: real := 150.0
  const UP_ABOVE: real := 160.0

  /** The three-way classification of a valid knee angle. */
  function Classify(a: real): (p: Phase)
    ensures p != Unknown
    ensures p == Down <==> a < DOWN_BELOW
    ensures p == Up <==> a > UP_ABOVE
    ensures p == Mid <==> DOWN_BELOW <= a <= UP_ABOVE
  {
    if a < DOWN_BELOW then Down else if a > UP_ABOVE then Up else Mid
  }

  /** A side's knee angle is usable when it is neither a sentinel 0 nor 999. */
  predicate ValidAngle(a: real)
  {
    0.0 < a < 999.0
  }

  const LEFT_HIP: nat := 23
  const RIGHT_HIP: nat := 24
  const LEFT_KNEE: nat := 25
  const RIGHT_KNEE: nat := 26
  const LEFT_ANKLE: nat := 27
  const RIGHT_ANKLE: nat := 28

  function LeftKneeAngle(lm: Frame): real
  {
    Angle(Get(lm, LEFT_HIP), Get(lm, LEFT_KNEE), Get(lm, LEFT_ANKLE))
  }

  function RightKneeAngle(lm: Frame): real
  {
    Angle(Get(lm, RIGHT_HIP), Get(lm, RIGHT_KNEE), Get(lm, RIGHT_ANKLE))
  }

  /** A valid angle comes from three present, visible points, so it is a
      proper angle in (0, 180]. */
  lemma ValidAngleFacts(a: Option<Landmark>, b: Option<Landmark>, c: Option<Landmark>)
    ensures ValidAngle(Angle(a, b, c)) ==> Gated(a, b, c) && 0.0 < Angle(a, b, c) <= 180.0
  {
  }

  /** The 1 m side confidence: the least visibility (default 1) of hip, knee
      and ankle. */
  function Confidence(hip: Option<Landmark>, knee: Option<Landmark>, ankle: Option<Landmark>): (c: real)
    ensures Gated(hip, knee, ankle) ==> c >= VIS_THR
  {
    var hv := if hip.Some? then VisOr(hip.value, 1.0) else 1.0;
    var kv := if knee.Some? then VisOr(knee.value, 1.0) else 1.0;
    var av := if ankle.Some? then VisOr(ankle.value, 1.0) else 1.0;
    Min(hv, Min(kv, av))
  }

  function Reading(a: real): (r: SquatReading)
    ensures r.valid && r.ang == a && r.state == Classify(a)
  {
    if a < DOWN_BELOW then SquatReading(Down, a, true)
    else if a > UP_ABOVE then SquatReading(Up, a, true)
    else SquatReading(Mid, a, true)
  }

  /** `squatState1m`: with both legs usable and their confidences within
      0.10 of each other, the confidence-weighted mean of the two angles;
      otherwise the angle of the more confident usable leg. */
  function SquatState1m(lm: Frame): (r: SquatReading)
    ensures !r.valid <==> !ValidAngle(LeftKneeAngle(lm)) && !ValidAngle(RightKneeAngle(lm))
    ensures !r.valid ==> r == SquatReading(Unknown, 0.0, false)
    ensures r.valid ==> r.state == Classify(r.ang) && 0.0 < r.ang <= 180.0
    ensures ValidAngle(LeftKneeAngle(lm)) && ValidAngle(RightKneeAngle(lm)) ==>
      Between(LeftKneeAngle(lm), RightKneeAngle(lm), r.ang)
    ensures ValidAngle(LeftKneeAngle(lm)) && !ValidAngle(RightKneeAngle(lm)) ==> r.ang == LeftKneeAngle(lm)
    ensures !ValidAngle(LeftKneeAngle(lm)) && ValidAngle(RightKneeAngle(lm)) ==> r.ang == RightKneeAngle(lm)
    ensures ValidAngle(LeftKneeAngle(lm)) && ValidAngle(RightKneeAngle(lm)) ==>
      var lc := Confidence(Get(lm, LEFT_HIP), Get(lm, LEFT_KNEE), Get(lm, LEFT_ANKLE));
      var rc := Confidence(Get(lm, RIGHT_HIP), Get(lm, RIGHT_KNEE), Get(lm, RIGHT_ANKLE));
      Abs(lc - rc) >= 0.10 ==> r.ang == (if lc > rc then LeftKneeAngle(lm) else RightKneeAngle(lm))
  {
    var leftAngle, rightAngle := LeftKneeAngle(lm), RightKneeAngle(lm);
    var leftValid, rightValid := ValidAngle(leftAngle), ValidAngle(rightAngle);
    if !leftValid && !rightValid then SquatReading(Unknown, 0.0, false)
    else
      var lh, lk, la := Get(lm, LEFT_HIP), Get(lm, LEFT_KNEE), Get(lm, LEFT_ANKLE);
      var rh, rk, ra := Get(lm, RIGHT_HIP), Get(lm, RIGHT_KNEE), Get(lm, RIGHT_ANKLE);
      ValidAngleFacts(lh, lk, la);
      ValidAngleFacts(rh, rk, ra);
      var leftConf := if leftValid then Confidence(lh, lk, la) else -1.0;
      var rightConf := if rightValid then Confidence(rh, rk, ra) else -1.0;
      var a :=
        if leftConf >= 0.0 && rightConf >= 0.0 then
          var confSum := leftConf + rightConf;
          if confSum > 0.0 && Abs(leftConf - rightConf) < 0.10 then
            WeightedMeanBetween(leftAngle, rightAngle, leftConf, rightConf);
            (leftAngle * leftConf + rightAngle * rightConf) / confSum
          else if leftConf > rightConf then leftAngle
          else rightAngle
        else if leftValid then leftAngle
        else rightAngle;
      Reading(a)
  }

  /** `squatState` (2 m): the smaller of the usable leg angles. */
  function SquatState2m(lm: Frame): (r: SquatReading)
    ensures !r.valid <==> !ValidAngle(LeftKneeAngle(lm)) && !ValidAngle(RightKneeAngle(lm))
    ensures !r.valid ==> r == SquatReading(Unknown, 0.0, false)
    ensures r.valid ==> r.state == Classify(r.ang) && 0.0 < r.ang <= 180.0
    ensures r.valid ==> r.ang == LeftKneeAngle(lm) || r.ang == RightKneeAngle(lm)
    ensures ValidAngle(LeftKneeAngle(lm)) ==> r.ang <= LeftKneeAngle(lm)
    ensures ValidAngle(RightKneeAngle(lm)) ==> r.ang <= RightKneeAngle(lm)
  {
    var leftAngle, rightAngle := LeftKneeAngle(lm), RightKneeAngle(lm);
    var leftValid, rightValid := ValidAngle(leftAngle), ValidAngle(rightAngle);
    if !leftValid && !rightValid then SquatReading(Unknown, 0.0, false)
    else
      ValidAngleFacts(Get(lm, LEFT_HIP), Get(lm, LEFT_KNEE), Get(lm, LEFT_ANKLE));
      ValidAngleFacts(Get(lm, RIGHT_HIP), Get(lm, RIGHT_KNEE), Get(lm, RIGHT_ANKLE));
      var candidates := (if leftValid then [leftAngle] else []) + (if rightValid then [rightAngle] else []);
      Reading(SeqMin(candidates))
  }

  /** `Math.min(...xs)` of a non-empty list. */
  function SeqMin(xs: seq<real>): (m: real)
    requires xs != []
    ensures m in xs
    ensures forall i :: 0 <= i < |xs| ==> m <= xs[i]
  {
    if |xs| == 1 then xs[0] else Min(xs[0], SeqMin(xs[1..]))
  }

  /** `hipDepth1m` and `hipDepth`: how far the mean ankle height lies below
      the mean hip height (image y grows downwards); 1 when a hip or ankle
      is missing. */
  function HipDepth(lm: Frame): (r: real)
    ensures (Get(lm, LEFT_HIP).None? || Get(lm, RIGHT_HIP).None? ||
             Get(lm, LEFT_ANKLE).None? || Get(lm, RIGHT_ANKLE).None?) ==> r == 1.0
    ensures Get(lm, LEFT_HIP).Some? && Get(lm, RIGHT_HIP).Some? &&
            Get(lm, LEFT_ANKLE).Some? && Get(lm, RIGHT_ANKLE).Some? ==>
      r == (Get(lm, LEFT_ANKLE).value.y + Get(lm, RIGHT_ANKLE).value.y) / 2.0
         - (Get(lm, LEFT_HIP).value.y + Get(lm, RIGHT_HIP).value.y) / 2.0
  {
    var lh, rh, la, ra := Get(lm, LEFT_HIP), Get(lm, RIGHT_HIP), Get(lm, LEFT_ANKLE), Get(lm, RIGHT_ANKLE);
    if lh.None? || rh.None? || la.None? || ra.None? then 1.0
    else
      var hipY := (lh.value.y + rh.value.y) / 2.0;
      var ankleY := (la.value.y + ra.value.y) / 2.0;
      ankleY - hipY
  }

  /** Raising both hips by the same amount deepens the squat by that amount. */
  lemma HipDepthShift(lm: Frame, d: real)
    requires Complete(lm)
    ensures
      var lm' := lm[LEFT_HIP := Some(At(lm, LEFT_HIP).(y := At(lm, LEFT_HIP).y - d))]
                   [RIGHT_HIP := Some(At(lm, RIGHT_HIP).(y := At(lm, RIGHT_HIP).y - d))];
      HipDepth(lm') == HipDepth(lm) + d
  {
  }

  const LEFT_SHOULDER: nat := 11
  const RIGHT_SHOULDER: nat := 12

  /** The landmarks `symmetry` reads without checking them. */
  predicate TorsoPresent(lm: Frame): (r: bool)
    ensures Complete(lm) ==> r
  {
    Get(lm, LEFT_SHOULDER).Some? && Get(lm, RIGHT_SHOULDER).Some? &&
    Get(lm, LEFT_HIP).Some? && Get(lm, RIGHT_HIP).Some?
  }

  /** Mean height difference of the shoulder pair and of the hip pair. */
  function YSymmetry(lm: Frame): (r: real)
    requires TorsoPresent(lm)
    ensures r >= 0.0
  {
    var ls, rs := Get(lm, LEFT_SHOULDER).value, Get(lm, RIGHT_SHOULDER).value;
    var lh, rh := Get(lm, LEFT_HIP).value, Get(lm, RIGHT_HIP).value;
    (Abs(ls.y - rs.y) + Abs(lh.y - rh.y)) / 2.0
  }

  function TorsoHeight(lm: Frame): (r: real)
    requires TorsoPresent(lm)
    ensures r >= 0.0
  {
    var ls, rs := Get(lm, LEFT_SHOULDER).value, Get(lm, RIGHT_SHOULDER).value;
    var lh, rh := Get(lm, LEFT_HIP).value, Get(lm, RIGHT_HIP).value;
    Abs((lh.y + rh.y) / 2.0 - (ls.y + rs.y) / 2.0)
  }

  /** Sideways offset of the shoulder midpoint from the hip midpoint, per unit
      of torso height; 0 for a torso of height 0.05 or less. */
  function LeanRatio(lm: Frame): (r: real)
    requires TorsoPresent(lm)
    ensures r >= 0.0
    ensures TorsoHeight(lm) <= 0.05 ==> r == 0.0
  {
    var ls, rs := Get(lm, LEFT_SHOULDER).value, Get(lm, RIGHT_SHOULDER).value;
    var lh, rh := Get(lm, LEFT_HIP).value, Get(lm, RIGHT_HIP).value;
    var xLean := Abs((ls.x + rs.x) / 2.0 - (lh.x + rh.x) / 2.0);
    var torso := TorsoHeight(lm);
    if torso > 0.05 then
      DivLower(xLean, 0.0, torso);
      xLean / torso
    else 0.0
  }

  /** `symmetry`: the worse of the height asymmetry and half the lean ratio. */
  function Symmetry(lm: Frame): (r: real)
    requires TorsoPresent(lm)
    ensures r >= 0.0
    ensures r >= YSymmetry(lm) && r >= 0.5 * LeanRatio(lm)
    ensures r == YSymmetry(lm) || r == 0.5 * LeanRatio(lm)
    ensures TorsoHeight(lm) <= 0.05 ==> r == YSymmetry(lm)
  {
    Max(YSymmetry(lm), LeanRatio(lm) * 0.5)
  }

  /** `heelLift` of the 1 m pose file, a stub that never reports a lift (the
      1 m heel test lives in the scoring logic, `SquatTrackers.HeelSide`). */
  function HeelLiftStub(lm: Frame): (r: bool)
    ensures !r
  {
    false
  }

  const LEFT_TOE: nat := 31
  const RIGHT_TOE: nat := 32

  /** `heelLift` (2 m): a side lifts when its ankle and toe are seen well
      (above 0.5 on the left, 0.65 on the right, visibility default 0) and
      the toe sits lower in the image than the ankle by more than 0.055
      (left) or 0.045 (right). */
  function HeelLift2m(lm: Frame): (r: bool)
    ensures (Get(lm, LEFT_ANKLE).None? || Get(lm, LEFT_TOE).None? ||
             Get(lm, RIGHT_ANKLE).None? || Get(lm, RIGHT_TOE).None?) ==> !r
    ensures r ==>
      var la, lt := Get(lm, LEFT_ANKLE).value, Get(lm, LEFT_TOE).value;
      var ra, rt := Get(lm, RIGHT_ANKLE).value, Get(lm, RIGHT_TOE).value;
      (VisOr(la, 0.0) > 0.5 && VisOr(lt, 0.0) > 0.5 && lt.y - la.y > 0.055) ||
      (VisOr(ra, 0.0) > 0.65 && VisOr(rt, 0.0) > 0.65 && rt.y - ra.y > 0.045)
    ensures Get(lm, LEFT_ANKLE).Some? && Get(lm, LEFT_TOE).Some? &&
            Get(lm, RIGHT_ANKLE).Some? && Get(lm, RIGHT_TOE).Some? ==>
      var la, lt := Get(lm, LEFT_ANKLE).value, Get(lm, LEFT_TOE).value;
      var ra, rt := Get(lm, RIGHT_ANKLE).value, Get(lm, RIGHT_TOE).value;
      ((VisOr(la, 0.0) > 0.5 && VisOr(lt, 0.0) > 0.5 && lt.y - la.y > 0.055) ||
       (VisOr(ra, 0.0) > 0.65 && VisOr(rt, 0.0) > 0.65 && rt.y - ra.y > 0.045)) ==> r
  {
    var rightThr, leftThr := 0.045, 0.055;
    var la, lt, ra, rt := Get(lm, LEFT_ANKLE), Get(lm, LEFT_TOE), Get(lm, RIGHT_ANKLE), Get(lm, RIGHT_TOE);
    if la.None? || lt.None? || ra.None? || rt.None? then false
    else
      var rightVisible := VisOr(ra.value, 0.0) > 0.65 && VisOr(rt.value, 0.0) > 0.65;
      var leftVisible := VisOr(la.value, 0.0) > 0.5 && VisOr(lt.value, 0.0) > 0.5;
      var rightLift := rightVisible && rt.value.y - ra.value.y > rightThr;
      var leftLift := leftVisible && lt.value.y - la.value.y > leftThr;
      leftLift || rightLift
  }
}
