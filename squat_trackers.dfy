/** The per-rep trackers shared by squat-scoring-logic-1meter.js and
    squat-scoring-logic-2meter.js: the heel-lift test against a standing
    baseline with its consecutive-frame counter, the staggered-stance
    (lunge) test with its latch, and the running minimum of the shoulder
    angle. Each is a pure step function here; the evaluator classes in
    `Squat1m` and `Squat2m` hold the state and apply the steps. */
module SquatTrackers {
  import opened Common
  import opened Geometry
  import opened SquatPose

  /** The debounce counter both the heel test and the stagger test use: up
      by one on a hit frame, down by one (never below 0) otherwise. */
  function CounterStep(c: nat, hit: bool): (r: nat)
    ensures hit ==> r == c + 1
    ensures !hit ==> r == if c == 0 then 0 else c - 1
  {
    if hit then c + 1 else if c == 0 then 0 else c - 1
  }

  function CounterRun(c: nat, hits: seq<bool>): nat
    decreases |hits|
  {
    if hits == [] then c else CounterRun(CounterStep(c, hits[0]), hits[1..])
  }

  /** Number of hit frames. */
  function Hits(hits: seq<bool>): nat
    decreases |hits|
  {
    if hits == [] then 0 else (if hits[0] then 1 else 0) + Hits(hits[1..])
  }

  /** The counter never exceeds its start value plus the number of hit
      frames, so a counter started at 0 reaches N only after N hit frames. */
  lemma {:induction false} CounterRunBound(c: nat, hits: seq<bool>)
    ensures CounterRun(c, hits) <= c + Hits(hits)
    decreases |hits|
  {
    if hits != [] {
      CounterRunBound(CounterStep(c, hits[0]), hits[1..]);
    }
  }

  /** N hit frames in a row from any start reach at least N. */
  lemma {:induction false} CounterRunAllHits(c: nat, hits: seq<bool>)
    requires forall i :: 0 <= i < |hits| ==> hits[i]
    ensures CounterRun(c, hits) == c + |hits|
    decreases |hits|
  {
    if hits != [] {
      CounterRunAllHits(c + 1, hits[1..]);
    }
  }

  // ---------------------------------------------------------------- heel lift

  /** `ema(prev, next, alpha)`: the new sample when there is no history,
      otherwise a step of `alpha` from the history towards it. */
  function Ema(prev: Option<real>, next: real, alpha: real): (r: real)
    ensures prev.None? ==> r == next
    ensures prev.Some? && 0.0 <= alpha <= 1.0 ==> Between(prev.value, next, r)
    ensures prev.Some? && alpha == 0.0 ==> r == prev.value
  {
    match prev
    case None => next
    case Some(p) => Lerp(p, next, alpha)
  }

  /** `updateToeGroundBaseline(prev, toeY)`: the lowest recent toe position,
      drifting up by 0.0005 per call so that an old low reading fades. */
  function UpdateToeGroundBaseline(prev: Option<real>, toeY: real): (r: real)
    ensures r >= toeY
    ensures prev.None? ==> r == toeY
    ensures prev.Some? ==> r >= prev.value - 0.0005 && (r == toeY || r == prev.value - 0.0005)
  {
    match prev
    case None => toeY
    case Some(p) => Max(p - 0.0005, toeY)
  }

  /** One foot's half of `heel1mBaseline`/`heel2mBaseline`. */
  datatype SideBaseline = SideBaseline(diff: Option<real>, toeGroundY: Option<real>)

  datatype HeelBaseline = HeelBaseline(left: SideBaseline, right: SideBaseline)

  const EmptyBaseline: HeelBaseline := HeelBaseline(SideBaseline(None, None), SideBaseline(None, None))

  /** The thresholds that differ between the two distance modes: the lift
      must exceed `deltaFactor` shin lengths over the baseline and
      `diffFactor` shin lengths in absolute terms, and `confirmFrames` net
      lift frames confirm it. */
  datatype HeelProfile = HeelProfile(deltaFactor: real, diffFactor: real, confirmFrames: nat)

  const Heel1m: HeelProfile := HeelProfile(0.18, 0.20, 3)
  const Heel2m: HeelProfile := HeelProfile(0.25, 0.28, 5)

  predicate ValidProfile(p: HeelProfile)
  {
    p.deltaFactor >= 0.15 && p.diffFactor >= 0.0
  }

  datatype SideLift = SideLift(lift: bool, severity: real)

  lemma DivStrictLower(x: real, lo: real, s: real)
    requires s > 0.0 && x > lo * s
    ensures x / s > lo
  {
    assert (x / s) * s == x;
    if x / s <= lo {
      MulMono(x / s, lo, s);
    }
  }

  /** `compute(idx, sideKey)` inside `heelLift1m`/`heelLift2m` for one foot:
      nothing for a foot that is missing, poorly seen (ankle, heel and toe
      below 0.45, knee below 0.35) or foreshortened (shin shorter than 0.05);
      otherwise whether the heel is lifted and how severely. Standing frames
      (`up`) first fold the foot into its baseline. */
  function HeelSide(profile: HeelProfile, knee: Option<Landmark>, ankle: Option<Landmark>,
                    heel: Option<Landmark>, toe: Option<Landmark>, base: SideBaseline, up: bool)
    : (r: (Option<SideLift>, SideBaseline))
    ensures r.0.None? || !up ==> r.1 == base
    ensures r.0.Some? ==>
      knee.Some? && ankle.Some? && heel.Some? && toe.Some? &&
      VisOr(ankle.value, 1.0) >= 0.45 && VisOr(heel.value, 1.0) >= 0.45 &&
      VisOr(toe.value, 1.0) >= 0.45 && VisOr(knee.value, 1.0) >= 0.35 &&
      Abs(knee.value.y - ankle.value.y) >= 0.05
    ensures r.0.Some? ==> 0.0 <= r.0.value.severity <= 1.0
    ensures r.0.Some? && r.0.value.lift && ValidProfile(profile) ==>
      toe.value.y > heel.value.y && r.0.value.severity > 0.0
    ensures r.0.Some? && up ==>
      r.1.diff.Some? && r.1.toeGroundY.Some? && r.1.toeGroundY.value >= toe.value.y
  {
    if knee.None? || ankle.None? || heel.None? || toe.None? then (None, base)
    else
      var k, a, h, t := knee.value, ankle.value, heel.value, toe.value;
      if !(VisOr(a, 1.0) >= 0.45 && VisOr(h, 1.0) >= 0.45 && VisOr(t, 1.0) >= 0.45) || VisOr(k, 1.0) < 0.35 then
        (None, base)
      else
        var shin := Abs(k.y - a.y);
        if shin < 0.05 then (None, base)
        else
          var toeY, heelY := t.y, h.y;
          var diff := toeY - heelY;
          var b := if up then SideBaseline(Some(Ema(base.diff, diff, 0.12)),
                                           Some(UpdateToeGroundBaseline(base.toeGroundY, toeY)))
                   else base;
          var refToeGroundY := if b.toeGroundY.None? then Max(toeY, heelY) else b.toeGroundY.value;
          var toeOnGround := toeY >= refToeGroundY - 0.15 * shin;
          var deltaFromBase := if b.diff.None? then diff else diff - b.diff.value;
          var lift := toeOnGround && deltaFromBase > profile.deltaFactor * shin && diff > profile.diffFactor * shin;
          var liftNorm := if toeOnGround then Max(0.0, deltaFromBase / shin) else 0.0;
          var severity := Clamp((liftNorm - 0.15) / (0.35 - 0.15), 0.0, 1.0);
          assert lift && ValidProfile(profile) ==> diff > 0.0 && severity > 0.0 by {
            if lift && ValidProfile(profile) {
              MulMono(0.0, profile.diffFactor, shin);
              DivStrictLower(deltaFromBase, profile.deltaFactor, shin);
            }
          }
          (Some(SideLift(lift, severity)), b)
  }

  const L_KNEE: nat := 25
  const L_ANKLE: nat := 27
  const L_HEEL: nat := 29
  const L_TOE: nat := 31
  const R_KNEE: nat := 26
  const R_ANKLE: nat := 28
  const R_HEEL: nat := 30
  const R_TOE: nat := 32

  function LeftHeel(profile: HeelProfile, lm: Frame, base: HeelBaseline, up: bool): (Option<SideLift>, SideBaseline)
  {
    HeelSide(profile, Get(lm, L_KNEE), Get(lm, L_ANKLE), Get(lm, L_HEEL), Get(lm, L_TOE), base.left, up)
  }

  function RightHeel(profile: HeelProfile, lm: Frame, base: HeelBaseline, up: bool): (Option<SideLift>, SideBaseline)
  {
    HeelSide(profile, Get(lm, R_KNEE), Get(lm, R_ANKLE), Get(lm, R_HEEL), Get(lm, R_TOE), base.right, up)
  }

  /** A frame of a squatting phase lifts when either usable foot lifts; its
      severity is the larger of the feet's (0 for an unusable foot). */
  function FrameLift(profile: HeelProfile, lm: Frame, base: HeelBaseline): (r: SideLift)
    ensures 0.0 <= r.severity <= 1.0
    ensures r.lift <==> (LeftHeel(profile, lm, base, false).0.Some? && LeftHeel(profile, lm, base, false).0.value.lift) ||
                        (RightHeel(profile, lm, base, false).0.Some? && RightHeel(profile, lm, base, false).0.value.lift)
    ensures r.lift && ValidProfile(profile) ==> r.severity > 0.0
  {
    var l := LeftHeel(profile, lm, base, false).0;
    var r := RightHeel(profile, lm, base, false).0;
    var lift := (l.Some? && l.value.lift) || (r.Some? && r.value.lift);
    var severity := Max(if l.Some? then l.value.severity else 0.0, if r.Some? then r.value.severity else 0.0);
    SideLift(lift, severity)
  }

  /** `heel1mConsecutive`, `heel1mMaxSeverity` and `heel1mBaseline` (and
      their 2 m counterparts). */
  datatype HeelTracker = HeelTracker(consecutive: nat, maxSeverity: real, baseline: HeelBaseline)

  /** The `{ liftConfirmed, severityMax }` record of the heel functions. */
  datatype HeelInfo = HeelInfo(liftConfirmed: bool, severityMax: real)

  predicate HeelTrackerInv(t: HeelTracker)
  {
    0.0 <= t.maxSeverity <= 1.0
  }

  /** `resetHeel1mTracking(keepBaseline)` / `resetHeel2mTracking(keepBaseline)` */
  function HeelReset(t: HeelTracker, keepBaseline: bool): (r: HeelTracker)
    ensures r.consecutive == 0 && r.maxSeverity == 0.0
    ensures keepBaseline ==> r.baseline == t.baseline
    ensures !keepBaseline ==> r.baseline == EmptyBaseline
  {
    HeelTracker(0, 0.0, if keepBaseline then t.baseline else EmptyBaseline)
  }

  /** `heelLift1m(lm, st)` / `heelLift2m(lm, st)`. A standing frame only
      refreshes the baseline and clears the counter; a squatting frame
      (DOWN or MID) moves the counter and confirms the lift once it reaches
      the profile's `confirmFrames`; any other phase clears the counter. */
  function HeelStep(profile: HeelProfile, t: HeelTracker, lm: Frame, phase: Phase): (r: (HeelTracker, HeelInfo))
    ensures phase == Up ==> r.0.consecutive == 0 && r.0.maxSeverity == 0.0 && r.1 == HeelInfo(false, 0.0)
    ensures phase == Unknown ==> r.0 == HeelReset(t, true) && r.1 == HeelInfo(false, 0.0)
    ensures phase != Up ==> r.0.baseline == t.baseline
    ensures phase == Up ==>
      r.0.baseline == HeelBaseline(LeftHeel(profile, lm, t.baseline, true).1,
                                   RightHeel(profile, lm, t.baseline, true).1)
    ensures phase == Down || phase == Mid ==>
      r.0.consecutive == CounterStep(t.consecutive, FrameLift(profile, lm, t.baseline).lift) &&
      (r.1.liftConfirmed <==> r.0.consecutive >= profile.confirmFrames) &&
      r.1.severityMax == r.0.maxSeverity && r.0.maxSeverity >= t.maxSeverity
    ensures HeelTrackerInv(t) ==> HeelTrackerInv(r.0) && 0.0 <= r.1.severityMax <= 1.0
  {
    if phase == Up then
      var (_, lb) := LeftHeel(profile, lm, t.baseline, true);
      var b1 := t.baseline.(left := lb);
      var (_, rb) := RightHeel(profile, lm, b1, true);
      (HeelTracker(0, 0.0, b1.(right := rb)), HeelInfo(false, 0.0))
    else if phase != Down && phase != Mid then
      (HeelTracker(0, 0.0, t.baseline), HeelInfo(false, 0.0))
    else
      var f := FrameLift(profile, lm, t.baseline);
      var maxSeverity := Max(t.maxSeverity, f.severity);
      var consecutive := CounterStep(t.consecutive, f.lift);
      (HeelTracker(consecutive, maxSeverity, t.baseline), HeelInfo(consecutive >= profile.confirmFrames, maxSeverity))
  }

  /** A lift is confirmed only after at least `confirmFrames` lift frames
      since the counter was last cleared: the counter is the run of
      `CounterStep`s over the frames' lift flags. */
  lemma HeelConfirmNeedsLiftFrames(profile: HeelProfile, flags: seq<bool>)
    requires CounterRun(0, flags) >= profile.confirmFrames
    ensures Hits(flags) >= profile.confirmFrames
  {
    CounterRunBound(0, flags);
  }

  // ------------------------------------------------------- staggered stance

  datatype StaggerReading = StaggerReading(staggered: bool, severity: real)

  const L_HIP: nat := 23
  const R_HIP: nat := 24
  const L_SHOULDER: nat := 11
  const R_SHOULDER: nat := 12

  /** The normalising torso height of `detectStaggeredStance`: the shoulder to
      hip height when both pairs are present and it is at least 0.1, else 0.3. */
  function StaggerTorso(lm: Frame): (r: real)
    ensures r >= 0.1
  {
    var ls, rs, lh, rh := Get(lm, L_SHOULDER), Get(lm, R_SHOULDER), Get(lm, L_HIP), Get(lm, R_HIP);
    if ls.Some? && rs.Some? && lh.Some? && rh.Some? then
      var h := Abs((lh.value.y + rh.value.y) / 2.0 - (ls.value.y + rs.value.y) / 2.0);
      if h < 0.1 then 0.3 else h
    else 0.3
  }

  /** `detectStaggeredStance(lm)`: one foot clearly ahead of the other. No
      verdict without all of hips, knees and ankles, or with a knee or ankle
      seen below 0.4; a stagger has severity in [0.5, 1], no stagger has 0. */
  function DetectStaggeredStance(lm: Frame): (r: StaggerReading)
    ensures |lm| < 33 ==> !r.staggered
    ensures (Get(lm, L_HIP).None? || Get(lm, R_HIP).None? || Get(lm, L_ANKLE).None? ||
             Get(lm, R_ANKLE).None? || Get(lm, L_KNEE).None? || Get(lm, R_KNEE).None?) ==> !r.staggered
    ensures r.staggered ==>
      VisOr(Get(lm, L_ANKLE).value, 1.0) >= 0.4 && VisOr(Get(lm, R_ANKLE).value, 1.0) >= 0.4 &&
      VisOr(Get(lm, L_KNEE).value, 1.0) >= 0.4 && VisOr(Get(lm, R_KNEE).value, 1.0) >= 0.4
    ensures r.staggered ==> Abs(Get(lm, L_ANKLE).value.x - Get(lm, R_ANKLE).value.x) > 0.025
    ensures !r.staggered ==> r.severity == 0.0
    ensures r.staggered ==> 0.5 <= r.severity <= 1.0
  {
    if |lm| < 33 then StaggerReading(false, 0.0)
    else
      var lh, rh, la, ra := Get(lm, L_HIP), Get(lm, R_HIP), Get(lm, L_ANKLE), Get(lm, R_ANKLE);
      var lk, rk := Get(lm, L_KNEE), Get(lm, R_KNEE);
      if lh.None? || rh.None? || la.None? || ra.None? || lk.None? || rk.None? then StaggerReading(false, 0.0)
      else if VisOr(la.value, 1.0) < 0.4 || VisOr(ra.value, 1.0) < 0.4 ||
              VisOr(lk.value, 1.0) < 0.4 || VisOr(rk.value, 1.0) < 0.4 then StaggerReading(false, 0.0)
      else
        var torso := StaggerTorso(lm);
        var ankleXDiff := Abs(la.value.x - ra.value.x);
        var ankleXThreshold := torso * 0.25;
        var kneeXDiff := Abs(lk.value.x - rk.value.x);
        var kneeXThreshold := torso * 0.20;
        var kneeYDiff := Abs(lk.value.y - rk.value.y);
        var ankleYDiff := Abs(la.value.y - ra.value.y);
        var yThreshold := torso * 0.15;
        var hasXSpread := ankleXDiff > ankleXThreshold && kneeXDiff > kneeXThreshold;
        var hasYDiff := kneeYDiff > yThreshold || ankleYDiff > yThreshold;
        var hasLargeXSpread := ankleXDiff > torso * 0.40;
        var isStaggered := (hasXSpread && hasYDiff) || hasLargeXSpread;
        if isStaggered then
          var xSeverity := Clamp((ankleXDiff - ankleXThreshold) / (torso * 0.3), 0.0, 1.0);
          var ySeverity := Clamp(Max(kneeYDiff, ankleYDiff) / (torso * 0.3), 0.0, 1.0);
          StaggerReading(true, Clamp(Max(xSeverity, ySeverity) * 0.5 + 0.5, 0.5, 1.0))
        else StaggerReading(false, 0.0)
  }

  /** `staggeredFrameCount`, `staggeredMaxSeverity`, `staggeredDetectedForRep` */
  datatype StaggerTracker = StaggerTracker(frameCount: nat, maxSeverity: real, detected: bool)

  /** `resetStaggeredTracking()` */
  const StaggerReset: StaggerTracker := StaggerTracker(0, 0.0, false)

  predicate StaggerInv(t: StaggerTracker)
  {
    0.0 <= t.maxSeverity <= 1.0
  }

  /** `updateStaggeredTracking(lm)`: once three net stagger frames have
      accumulated the rep is marked, and stays marked until the next reset;
      the severity kept is the largest seen. */
  function StaggerStep(t: StaggerTracker, lm: Frame): (r: StaggerTracker)
    ensures r.frameCount == CounterStep(t.frameCount, DetectStaggeredStance(lm).staggered)
    ensures t.detected ==> r.detected
    ensures r.detected && !t.detected ==> r.frameCount >= 3
    ensures r.maxSeverity >= t.maxSeverity
    ensures r.maxSeverity > t.maxSeverity ==> DetectStaggeredStance(lm).staggered
    ensures StaggerInv(t) ==> StaggerInv(r)
  {
    var d := DetectStaggeredStance(lm);
    if d.staggered then
      var count := t.frameCount + 1;
      StaggerTracker(count, Max(t.maxSeverity, d.severity), t.detected || count >= 3)
    else
      StaggerTracker(CounterStep(t.frameCount, false), t.maxSeverity, t.detected)
  }

  function StaggerRun(t: StaggerTracker, frames: seq<Frame>): StaggerTracker
    decreases |frames|
  {
    if frames == [] then t else StaggerRun(StaggerStep(t, frames[0]), frames[1..])
  }

  function StaggerFlags(frames: seq<Frame>): (r: seq<bool>)
    ensures |r| == |frames|
    ensures forall i :: 0 <= i < |frames| ==> r[i] == DetectStaggeredStance(frames[i]).staggered
  {
    seq(|frames|, i requires 0 <= i < |frames| => DetectStaggeredStance(frames[i]).staggered)
  }

  /** A run of frames marks the rep only if it was marked already or the
      counter plus the stagger frames of the run reach three. */
  lemma {:induction false} StaggerRunDetection(t: StaggerTracker, frames: seq<Frame>)
    ensures StaggerRun(t, frames).detected ==> t.detected || t.frameCount + Hits(StaggerFlags(frames)) >= 3
    ensures t.detected ==> StaggerRun(t, frames).detected
    decreases |frames|
  {
    if frames != [] {
      var t' := StaggerStep(t, frames[0]);
      StaggerRunDetection(t', frames[1..]);
      assert StaggerFlags(frames) == [StaggerFlags(frames)[0]] + StaggerFlags(frames[1..]);
    }
  }

  /** After a reset, a stagger is confirmed only after three stagger frames. */
  lemma StaggerConfirmNeedsThreeFrames(frames: seq<Frame>)
    requires StaggerRun(StaggerReset, frames).detected
    ensures Hits(StaggerFlags(frames)) >= 3
  {
    StaggerRunDetection(StaggerReset, frames);
  }

  // ---------------------------------------------------------- shoulder angle

  /** `angleBetween(v1, v2)` of `calculateShoulderAngle`: none for a vector
      shorter than 0.001 (compared on squared lengths, 0.001^2 = 0.000001). */
  function AngleBetween(v1: Vec, v2: Vec): (r: Option<real>)
    ensures r.Some? ==> 0.0 <= r.value <= 180.0
    ensures (v1.x * v1.x + v1.y * v1.y < 0.000001 || v2.x * v2.x + v2.y * v2.y < 0.000001) ==> r.None?
  {
    var s1, s2 := v1.x * v1.x + v1.y * v1.y, v2.x * v2.x + v2.y * v2.y;
    if s1 < 0.000001 || s2 < 0.000001 then None
    else
      var m1, m2 := Sqrt(s1), Sqrt(s2);
      MulPos(m1, m2);
      var dot := v1.x * v2.x + v1.y * v2.y;
      Some(AcosDegrees(Clamp(dot / (m1 * m2), -1.0, 1.0)))
  }

  /** One side's angle between torso (shoulder to hip) and upper arm
      (shoulder to elbow), when all three points are seen above 0.4. */
  function ArmAngle(shoulder: Option<Landmark>, elbow: Option<Landmark>, hip: Option<Landmark>): (r: Option<real>)
    ensures r.Some? ==> 0.0 <= r.value <= 180.0
    ensures r.Some? ==>
      shoulder.Some? && elbow.Some? && hip.Some? &&
      VisOr(shoulder.value, 1.0) > 0.4 && VisOr(elbow.value, 1.0) > 0.4 && VisOr(hip.value, 1.0) > 0.4
  {
    if shoulder.Some? && elbow.Some? && hip.Some? &&
       VisOr(shoulder.value, 1.0) > 0.4 && VisOr(elbow.value, 1.0) > 0.4 && VisOr(hip.value, 1.0) > 0.4 then
      var s, e, h := shoulder.value, elbow.value, hip.value;
      AngleBetween(Vec(h.x - s.x, h.y - s.y), Vec(e.x - s.x, e.y - s.y))
    else None
  }

  const L_ELBOW: nat := 13
  const R_ELBOW: nat := 14

  /** `calculateShoulderAngle(lm)`: the mean of the usable sides' arm angles,
      none when the frame is shorter than 17 or no side is usable. */
  function ShoulderAngle(lm: Frame): (r: Option<real>)
    ensures |lm| < 17 ==> r.None?
    ensures r.Some? ==> 0.0 <= r.value <= 180.0
    ensures |lm| >= 17 ==>
      (r.None? <==> ArmAngle(Get(lm, L_SHOULDER), Get(lm, L_ELBOW), Get(lm, L_HIP)).None? &&
                    ArmAngle(Get(lm, R_SHOULDER), Get(lm, R_ELBOW), Get(lm, R_HIP)).None?)
  {
    if |lm| < 17 then None
    else
      var l := ArmAngle(Get(lm, L_SHOULDER), Get(lm, L_ELBOW), Get(lm, L_HIP));
      var r := ArmAngle(Get(lm, R_SHOULDER), Get(lm, R_ELBOW), Get(lm, R_HIP));
      var angles := (if l.Some? then [l.value] else []) + (if r.Some? then [r.value] else []);
      if |angles| == 0 then None
      else
        SumBounds(angles, 0.0, 180.0);
        DivLower(Sum(angles), 0.0, |angles| as real);
        DivUpper(Sum(angles), 180.0, |angles| as real);
        Some(Sum(angles) / |angles| as real)
  }

  /** `updateShoulderAngleTracking(lm)`: the running minimum, starting from 999. */
  function ShoulderStep(minAngle: real, lm: Frame): (r: real)
    ensures r <= minAngle
    ensures r == minAngle || (ShoulderAngle(lm).Some? && r == ShoulderAngle(lm).value)
    ensures ShoulderAngle(lm).Some? ==> r <= ShoulderAngle(lm).value
  {
    var a := ShoulderAngle(lm);
    if a.Some? && a.value < minAngle then a.value else minAngle
  }
}
