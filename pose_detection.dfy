/** The exercise-independent part of poseDetection.js: landmark smoothing
    between frames, the "is the lower body visible" test, and the counter
    that decides when the skeleton overlay may be drawn. */
module PoseDetection {
  import opened Common
  import opened Geometry

  /** How far `smooth` moves a landmark towards its newly detected position,
      by the landmark's visibility: not at all below 0.4, a little below 0.6,
      mostly above. */
  function BlendWeight(v: real): (f: real)
    ensures 0.0 <= f <= 1.0
    ensures f == 0.0 <==> v < 0.4
    ensures v >= 0.6 ==> f == 0.7
  {
    if v < 0.4 then 0.0 else if v < 0.6 then 0.2 else 0.7
  }

  /** Smoothing of one landmark `p` against its previous smoothed value `q`. */
  function SmoothPoint(p: Landmark, q: Landmark): (r: Landmark)
    ensures r.visibility.Some?
    ensures Between(q.x, p.x, r.x) && Between(q.y, p.y, r.y) && Between(q.z, p.z, r.z)
    ensures Between(VisOr(q, 1.0), VisOr(p, 1.0), r.visibility.value)
    ensures VisOr(p, 1.0) < 0.4 ==> r.x == q.x && r.y == q.y && r.z == q.z
  {
    var v := VisOr(p, 1.0);
    var f := BlendWeight(v);
    Landmark(Lerp(q.x, p.x, f), Lerp(q.y, p.y, f), Lerp(q.z, p.z, f),
             Some(Lerp(VisOr(q, 1.0), v, 0.3)))
  }

  /** `smooth(lm, prev)`: a copy of the detection when there is no previous
      frame, otherwise every landmark blended with its predecessor. The
      source reads `prev[i]` for every `i` of `lm`, so `prev` must be at
      least as long. */
  function Smooth(lm: seq<Landmark>, prev: Option<seq<Landmark>>): (r: seq<Landmark>)
    requires prev.Some? ==> |prev.value| >= |lm|
    ensures |r| == |lm|
    ensures prev.None? ==> r == lm
    ensures prev.Some? ==> forall i :: 0 <= i < |lm| ==>
      Between(prev.value[i].x, lm[i].x, r[i].x) &&
      Between(prev.value[i].y, lm[i].y, r[i].y) &&
      Between(prev.value[i].z, lm[i].z, r[i].z) &&
      r[i].visibility.Some?
  {
    match prev
    case None => lm
    case Some(q) => seq(|lm|, i requires 0 <= i < |lm| => SmoothPoint(lm[i], q[i]))
  }

  /** A landmark detected with visibility below 0.4 does not move at all. */
  lemma SmoothFreezesHiddenLandmarks(lm: seq<Landmark>, prev: seq<Landmark>, i: nat)
    requires |prev| >= |lm| && i < |lm|
    requires VisOr(lm[i], 1.0) < 0.4
    ensures Smooth(lm, Some(prev))[i].x == prev[i].x
    ensures Smooth(lm, Some(prev))[i].y == prev[i].y
    ensures Smooth(lm, Some(prev))[i].z == prev[i].z
  {
    assert Smooth(lm, Some(prev))[i] == SmoothPoint(lm[i], prev[i]);
  }

  /** A frame whose points all sit still reproduces itself under smoothing. */
  lemma {:induction false} SmoothFixedPoint(lm: seq<Landmark>, i: nat)
    requires i < |lm|
    ensures Smooth(lm, Some(lm))[i].x == lm[i].x
    ensures Smooth(lm, Some(lm))[i].y == lm[i].y
    ensures Smooth(lm, Some(lm))[i].z == lm[i].z
  {
    var r := Smooth(lm, Some(lm))[i];
    assert r == SmoothPoint(lm[i], lm[i]);
    assert Between(lm[i].x, lm[i].x, r.x);
  }

  const LEFT_HIP: nat := 23
  const RIGHT_HIP: nat := 24
  const LEFT_KNEE: nat := 25
  const RIGHT_KNEE: nat := 26
  const LEFT_ANKLE: nat := 27
  const RIGHT_ANKLE: nat := 28

  predicate LowerBodyPresent(lm: Frame)
  {
    Get(lm, LEFT_ANKLE).Some? && Get(lm, RIGHT_ANKLE).Some? &&
    Get(lm, LEFT_KNEE).Some? && Get(lm, RIGHT_KNEE).Some? &&
    Get(lm, LEFT_HIP).Some? && Get(lm, RIGHT_HIP).Some?
  }

  /** `hasVisibleLowerBody`: both knees and both ankles seen with visibility
      (default 0) above 0.4, hip above knee above ankle by more than 0.02
      each on average, and both ankles strictly inside the vertical band
      (0.01, 0.99). The hips' own visibility is not consulted. */
  function HasVisibleLowerBody(lm: Frame): (r: bool)
    ensures r ==> LowerBodyPresent(lm)
    ensures r ==>
      var la, ra := Get(lm, LEFT_ANKLE).value, Get(lm, RIGHT_ANKLE).value;
      var lh, rh := Get(lm, LEFT_HIP).value, Get(lm, RIGHT_HIP).value;
      (la.y + ra.y) / 2.0 - (lh.y + rh.y) / 2.0 > 0.04 &&
      0.01 < la.y < 0.99 && 0.01 < ra.y < 0.99 &&
      VisOr(la, 0.0) > 0.4 && VisOr(ra, 0.0) > 0.4
  {
    if !LowerBodyPresent(lm) then false
    else
      var la, ra := Get(lm, LEFT_ANKLE).value, Get(lm, RIGHT_ANKLE).value;
      var lk, rk := Get(lm, LEFT_KNEE).value, Get(lm, RIGHT_KNEE).value;
      var lh, rh := Get(lm, LEFT_HIP).value, Get(lm, RIGHT_HIP).value;
      var ankleVisible := VisOr(la, 0.0) > 0.4 && VisOr(ra, 0.0) > 0.4;
      var kneeVisible := VisOr(lk, 0.0) > 0.4 && VisOr(rk, 0.0) > 0.4;
      var avgHipY := (lh.y + rh.y) / 2.0;
      var avgKneeY := (lk.y + rk.y) / 2.0;
      var avgAnkleY := (la.y + ra.y) / 2.0;
      var proportionsValid := avgKneeY - avgHipY > 0.02 && avgAnkleY - avgKneeY > 0.02;
      var anklesInFrame := la.y > 0.01 && ra.y > 0.01 && la.y < 0.99 && ra.y < 0.99;
      ankleVisible && kneeVisible && proportionsValid && anklesInFrame
  }

  const LOWER_BODY_FRAMES_REQUIRED: nat := 1
  const LOWER_BODY_MISS_TOLERANCE: nat := 45

  /** The module counters `lowerBodyStableFrames`, `lowerBodyMissFrames`
      and `poseOverlayReady`. */
  datatype Readiness = Readiness(stableFrames: nat, missFrames: nat, ready: bool)

  /** The miss counter only runs while the overlay is shown, and never
      exceeds the tolerance. */
  predicate ReadinessInv(s: Readiness)
  {
    (!s.ready ==> s.missFrames == 0) && s.missFrames <= LOWER_BODY_MISS_TOLERANCE
  }

  /** `updateOverlayReadiness(lm)`, where `None` is the null frame of a
      detection that found no pose. */
  function ReadinessStep(s: Readiness, lm: Option<Frame>): (r: Readiness)
    ensures lm.None? ==> r == Readiness(0, 0, false)
    ensures lm.Some? && HasVisibleLowerBody(lm.value) ==> r.ready && r.missFrames == 0
    ensures lm.Some? && !HasVisibleLowerBody(lm.value) ==> r.stableFrames == 0
    ensures lm.Some? && !HasVisibleLowerBody(lm.value) && !s.ready ==> !r.ready
    ensures ReadinessInv(s) ==> ReadinessInv(r)
  {
    match lm
    case None => Readiness(0, 0, false)
    case Some(f) =>
      if HasVisibleLowerBody(f) then
        var stable := s.stableFrames + 1;
        Readiness(stable, 0, s.ready || stable >= LOWER_BODY_FRAMES_REQUIRED)
      else if s.ready then
        var miss := s.missFrames + 1;
        if miss > LOWER_BODY_MISS_TOLERANCE then Readiness(0, 0, false)
        else Readiness(0, miss, true)
      else
        Readiness(0, 0, false)
  }

  function ReadinessRun(s: Readiness, frames: seq<Option<Frame>>): Readiness
    decreases |frames|
  {
    if frames == [] then s else ReadinessRun(ReadinessStep(s, frames[0]), frames[1..])
  }

  /** A frame with a pose whose lower body is not visible. */
  predicate Miss(lm: Option<Frame>)
  {
    lm.Some? && !HasVisibleLowerBody(lm.value)
  }

  /** While misses stay within the tolerance, a shown overlay stays shown
      and the miss counter counts them. */
  lemma {:induction false} MissesWithinToleranceKeepReady(s: Readiness, frames: seq<Option<Frame>>)
    requires s.ready && ReadinessInv(s)
    requires forall i :: 0 <= i < |frames| ==> Miss(frames[i])
    requires s.missFrames + |frames| <= LOWER_BODY_MISS_TOLERANCE
    ensures ReadinessRun(s, frames).ready
    ensures ReadinessRun(s, frames).missFrames == s.missFrames + |frames|
    decreases |frames|
  {
    if frames != [] {
      var s' := ReadinessStep(s, frames[0]);
      assert Miss(frames[0]);
      assert s'.ready && s'.missFrames == s.missFrames + 1;
      MissesWithinToleranceKeepReady(s', frames[1..]);
    }
  }

  /** The miss that takes the count past the tolerance hides the overlay:
      from a freshly confirmed overlay, 45 misses keep it and the 46th drops it. */
  lemma {:induction false} MissBeyondToleranceClearsReady(s: Readiness, frames: seq<Option<Frame>>)
    requires s.ready && ReadinessInv(s)
    requires forall i :: 0 <= i < |frames| ==> Miss(frames[i])
    requires s.missFrames + |frames| == LOWER_BODY_MISS_TOLERANCE + 1
    ensures ReadinessRun(s, frames) == Readiness(0, 0, false)
    decreases |frames|
  {
    var s' := ReadinessStep(s, frames[0]);
    assert Miss(frames[0]);
    if |frames| == 1 {
      assert s' == Readiness(0, 0, false);
      assert frames[1..] == [];
    } else {
      assert s'.ready && s'.missFrames == s.missFrames + 1;
      MissBeyondToleranceClearsReady(s', frames[1..]);
    }
  }

  /** Any run of frames keeps the counter invariant. */
  lemma {:induction false} ReadinessRunKeepsInv(s: Readiness, frames: seq<Option<Frame>>)
    requires ReadinessInv(s)
    ensures ReadinessInv(ReadinessRun(s, frames))
    decreases |frames|
  {
    if frames != [] {
      ReadinessRunKeepsInv(ReadinessStep(s, frames[0]), frames[1..]);
    }
  }

  /** The overlay-readiness counters of poseDetection.js. */
  class OverlayReadiness {
    var lowerBodyStableFrames: nat
    var lowerBodyMissFrames: nat
    var poseOverlayReady: bool

    function Model(): Readiness
      reads this
    {
      Readiness(lowerBodyStableFrames, lowerBodyMissFrames, poseOverlayReady)
    }

    constructor ()
      ensures Model() == Readiness(0, 0, false)
    {
      lowerBodyStableFrames := 0;
      lowerBodyMissFrames := 0;
      poseOverlayReady := false;
    }

    /** `updateOverlayReadiness(lm)` */
    method Update(lm: Option<Frame>)
      modifies this
      ensures Model() == ReadinessStep(old(Model()), lm)
    {
      if lm.None? {
        lowerBodyStableFrames := 0;
        lowerBodyMissFrames := 0;
        poseOverlayReady := false;
        return;
      }
      if HasVisibleLowerBody(lm.value) {
        lowerBodyStableFrames := lowerBodyStableFrames + 1;
        lowerBodyMissFrames := 0;
        if lowerBodyStableFrames >= LOWER_BODY_FRAMES_REQUIRED {
          poseOverlayReady := true;
        }
      } else {
        lowerBodyStableFrames := 0;
        if poseOverlayReady {
          lowerBodyMissFrames := lowerBodyMissFrames + 1;
          if lowerBodyMissFrames > LOWER_BODY_MISS_TOLERANCE {
            poseOverlayReady := false;
            lowerBodyMissFrames := 0;
          }
        } else {
          lowerBodyMissFrames := 0;
        }
      }
    }
  }
}
