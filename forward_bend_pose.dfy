/** The flexibility metrics of forward-bend-pose-detection-1meter.js,
    computed with the visibility-gated `angle` (0 for a missing or barely
    visible point, 999 for a zero-length segment). */
module ForwardBendPose {
  import opened Common
  import opened Geometry

  const NOSE: nat := 0
  const LEFT_WRIST: nat := 15
  const RIGHT_WRIST: nat := 16

  datatype FlexMetrics = FlexMetrics(
    hipFlexion: real,
    thoracicFlexion: real,
    kneeBend: real,
    reachDistance: real)

  /** The landmarks whose `y` the metrics read without a check: the nose,
      both wrists and both ankles. */
  predicate ReachPointsPresent(lm: Frame)
  {
    Get(lm, NOSE).Some? && Get(lm, LEFT_WRIST).Some? && Get(lm, RIGHT_WRIST).Some? &&
    Get(lm, 27).Some? && Get(lm, 28).Some?
  }

  /** `forwardBendMetrics(lm)`: `hipFlexion` is the smaller of the two
      hip-knee-ankle angles and `thoracicFlexion` the smaller of the two
      shoulder-hip-knee angles; the knee bend is the larger of the two
      complements to 180 degrees, which is the complement of `hipFlexion`;
      the reach is the wrists' height over the ankles as a fraction of the
      nose-to-ankle height, and 1 when that height is 0. */
  function ForwardBendMetrics(lm: Frame): (m: FlexMetrics)
    requires ReachPointsPresent(lm)
    ensures m.hipFlexion == Min(Angle(Get(lm, 23), Get(lm, 25), Get(lm, 27)),
                                Angle(Get(lm, 24), Get(lm, 26), Get(lm, 28)))
    ensures m.thoracicFlexion == Min(Angle(Get(lm, 11), Get(lm, 23), Get(lm, 25)),
                                     Angle(Get(lm, 12), Get(lm, 24), Get(lm, 26)))
    ensures m.kneeBend == 180.0 - m.hipFlexion
    ensures (Get(lm, 27).value.y + Get(lm, 28).value.y) / 2.0 == Get(lm, NOSE).value.y ==>
      m.reachDistance == 1.0
  {
    var hipFlexLeft := Angle(Get(lm, 23), Get(lm, 25), Get(lm, 27));
    var hipFlexRight := Angle(Get(lm, 24), Get(lm, 26), Get(lm, 28));
    var thoracicLeft := Angle(Get(lm, 11), Get(lm, 23), Get(lm, 25));
    var thoracicRight := Angle(Get(lm, 12), Get(lm, 24), Get(lm, 26));
    var kneeBend := Max(180.0 - hipFlexLeft, 180.0 - hipFlexRight);
    var wristY := (Get(lm, LEFT_WRIST).value.y + Get(lm, RIGHT_WRIST).value.y) / 2.0;
    var ankleY := (Get(lm, 27).value.y + Get(lm, 28).value.y) / 2.0;
    var standingHeight := Abs(ankleY - Get(lm, NOSE).value.y);
    var reach := if standingHeight > 0.0 then (wristY - ankleY) / standingHeight else 1.0;
    FlexMetrics(Min(hipFlexLeft, hipFlexRight), Min(thoracicLeft, thoracicRight), kneeBend, reach)
  }

  /** With every limb of both legs seen and of non-zero length the flexion
      is a proper angle and the knee bend lies in [0, 180]. */
  lemma KneeBendInRange(lm: Frame)
    requires ReachPointsPresent(lm)
    requires Gated(Get(lm, 23), Get(lm, 25), Get(lm, 27)) && Gated(Get(lm, 24), Get(lm, 26), Get(lm, 28))
    requires !Degenerate(ToVec(Get(lm, 23).value), ToVec(Get(lm, 25).value), ToVec(Get(lm, 27).value))
    requires !Degenerate(ToVec(Get(lm, 24).value), ToVec(Get(lm, 26).value), ToVec(Get(lm, 28).value))
    ensures 0.0 <= ForwardBendMetrics(lm).hipFlexion <= 180.0
    ensures 0.0 <= ForwardBendMetrics(lm).kneeBend <= 180.0
  {
  }
}
