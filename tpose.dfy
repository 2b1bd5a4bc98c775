/** The single-leg-stance ("T-pose balance") test of
    t-pose-scoring-logic-2meter.js. Each frame decides which foot is raised
    from the height difference of the ankles; a stance leg is adopted after
    400 ms of the same reading and released after 450 ms of a different one.
    While a stance is held every frame adds a sample to the current hold's
    buffer, and the longest hold's buffer is kept as the best one; the final
    result is computed from the best buffer alone. */
module TPose {
  import opened Common
  import opened Geometry

  const SINGLE_LEG_TEST_WINDOW: real := 10000.0
  const STANCE_GAP_THRESHOLD: real := 0.02
  const STANCE_CONFIRM_MS: real := 400.0
  const STANCE_LOSS_MS: real := 450.0
  const MIN_VALID_HOLD_SECONDS: real := 5.0

  /** `'left'` or `'right'`: the leg standing on the floor. */
  datatype Leg = Left | Right

  /** One entry of the hold buffers. */
  datatype HoldSample = HoldSample(
    stanceKnee: real,
    liftedKnee: real,
    liftedHipAngle: real,
    torsoDeviation: real,
    sway: real,
    timestamp: real,
    leg: Leg)

  /** A hold attempt: its duration and the samples taken during it
      (`currentHoldMs`/`currentHoldMetrics`, `bestHoldMs`/`bestHoldMetrics`). */
  datatype Hold = Hold(holdMs: real, metrics: seq<HoldSample>)

  /** The stance debounce: `stanceLeg`, `pendingStance` and `pendingMs`. */
  datatype Stance = Stance(leg: Option<Leg>, pending: Option<Leg>, pendingMs: real)

  /** `singleLegStanceState`, without the feedback fields no code reads. */
  datatype State = State(
    testStart: Option<real>,
    lastTimestamp: Option<real>,
    stance: Stance,
    current: Hold,
    best: Hold,
    bestLeg: Option<Leg>)

  const NoHold: Hold := Hold(0.0, [])
  const NoStance: Stance := Stance(None, None, 0.0)

  /** `resetTPoseBalanceState()` and the module's initial value. */
  const Initial: State := State(None, None, NoStance, NoHold, NoHold, None)

  /** `startTPoseBalanceTest()`: a fresh test started at `now`. */
  function Start(now: real): State
  {
    State(Some(now), Some(now), NoStance, NoHold, NoHold, None)
  }

  /** `asymmetricQuality(value, target, lowerOk, upperOk, lowerZero, upperZero)`:
      1 inside the band [target + lowerOk, target + upperOk], 0 from the zero
      offsets outwards, linear in between. The divisions are only reached
      when their divisor is positive. */
  function AsymmetricQuality(value: real, target: real, lowerOk: real, upperOk: real,
                             lowerZero: real, upperZero: real): (q: real)
    ensures 0.0 <= q <= 1.0
    ensures lowerOk <= value - target <= upperOk ==> q == 1.0
    ensures value - target < lowerOk && value - target <= lowerZero ==> q == 0.0
    ensures (value - target > upperOk && value - target >= upperZero &&
             !(value - target < lowerOk)) ==> q == 0.0
  {
    var delta := value - target;
    if lowerOk <= delta <= upperOk then 1.0
    else if delta < lowerOk then
      if delta <= lowerZero then 0.0
      else Clamp(1.0 - (lowerOk - delta) / (lowerOk - lowerZero), 0.0, 1.0)
    else if delta >= upperZero then 0.0
    else Clamp(1.0 - (delta - upperOk) / (upperZero - upperOk), 0.0, 1.0)
  }

  /** The quality falls as the value leaves the band towards the zero
      offset below it. */
  lemma AsymmetricQualityBelowBand(v1: real, v2: real, target: real, lowerOk: real, upperOk: real,
                                   lowerZero: real, upperZero: real)
    requires v1 <= v2 < target + lowerOk
    ensures AsymmetricQuality(v1, target, lowerOk, upperOk, lowerZero, upperZero)
         <= AsymmetricQuality(v2, target, lowerOk, upperOk, lowerZero, upperZero)
  {
    var d1, d2 := v1 - target, v2 - target;
    if lowerZero < d1 {
      assert (lowerOk - d1) / (lowerOk - lowerZero) >= (lowerOk - d2) / (lowerOk - lowerZero) by {
        DivMonotone(lowerOk - d2, lowerOk - d1, lowerOk - lowerZero);
      }
    }
  }

  // ------------------------------------------------------------- the frame

  /** The candidate stance: the left foot is on the floor when the left
      ankle is lower in the image (larger y) by more than the gap threshold,
      the right one symmetrically, and no candidate otherwise. */
  function Candidate(lm: Frame): (c: Option<Leg>)
    requires Complete(lm)
    ensures c == Some(Left) <==> At(lm, 27).y - At(lm, 28).y > STANCE_GAP_THRESHOLD
    ensures c == Some(Right) <==> At(lm, 27).y - At(lm, 28).y < -STANCE_GAP_THRESHOLD
  {
    var ankleDiff := At(lm, 27).y - At(lm, 28).y;
    if ankleDiff > STANCE_GAP_THRESHOLD then Some(Left)
    else if ankleDiff < -STANCE_GAP_THRESHOLD then Some(Right)
    else None
  }

  /** The sample taken in a frame where `leg` stands: the two knee angles,
      the lifted side's hip angle, the torso's deviation from straight and
      the hip's horizontal sway over the standing ankle. */
  function TakeSample(lm: Frame, leg: Leg, elapsed: real): (m: HoldSample)
    requires Complete(lm)
    ensures m.leg == leg && m.timestamp == elapsed
    ensures m.torsoDeviation >= 0.0 && m.sway >= 0.0
  {
    var (sHip, sKnee, sAnkle) := if leg == Left then (23, 25, 27) else (24, 26, 28);
    var (lHip, lKnee, lAnkle) := if leg == Left then (24, 26, 28) else (23, 25, 27);
    var stanceKnee := UngatedAngle(PV(lm, sHip), PV(lm, sKnee), PV(lm, sAnkle));
    var liftedKnee := UngatedAngle(PV(lm, lHip), PV(lm, lKnee), PV(lm, lAnkle));
    var liftedShoulder := if leg == Left then 12 else 11;
    var liftedHipAngle := UngatedAngle(PV(lm, liftedShoulder), PV(lm, lHip), PV(lm, lKnee));
    var shoulderMid := Midpoint(At(lm, 11), At(lm, 12));
    var hipMid := Midpoint(At(lm, 23), At(lm, 24));
    var torsoAngle := UngatedAngle(PV(lm, sAnkle), Some(hipMid), Some(shoulderMid));
    HoldSample(stanceKnee, liftedKnee, liftedHipAngle, Abs(180.0 - torsoAngle),
               Abs(hipMid.x - At(lm, sAnkle).x), elapsed, leg)
  }

  /** The time since the previous frame, 0 on the first one. */
  function Delta(s: State, now: real): real
  {
    if Truthy(s.lastTimestamp) then now - s.lastTimestamp.value else 0.0
  }

  /** No stance yet: the candidate must persist for `STANCE_CONFIRM_MS`.
      A new or missing candidate restarts the wait. */
  function Acquire(s: State, cand: Option<Leg>, delta: real): (r: State)
    ensures r.best == s.best && r.bestLeg == s.bestLeg
    ensures r.testStart == s.testStart && r.lastTimestamp == s.lastTimestamp
    ensures s.stance.leg.None? ==>
      (r.stance.leg.Some? <==>
        cand.Some? && s.stance.pending == cand && s.stance.pendingMs + delta >= STANCE_CONFIRM_MS)
    ensures r.stance.leg != s.stance.leg ==>
      r.stance == Stance(cand, None, 0.0) && r.current == s.current.(holdMs := 0.0)
    ensures cand != s.stance.pending || cand.None? ==>
      r == s.(stance := Stance(s.stance.leg, cand, 0.0))
  {
    if cand.None? then s.(stance := s.stance.(pending := None, pendingMs := 0.0))
    else if s.stance.pending == cand then
      var pendingMs := s.stance.pendingMs + delta;
      if pendingMs >= STANCE_CONFIRM_MS then
        s.(stance := Stance(cand, None, 0.0), current := s.current.(holdMs := 0.0))
      else s.(stance := s.stance.(pendingMs := pendingMs))
    else s.(stance := s.stance.(pending := cand, pendingMs := 0.0))
  }

  /** A stance held and a frame that disagrees with it: after
      `STANCE_LOSS_MS` of such frames the stance is released and the current
      hold discarded, after being kept as the best if it is longer. */
  function Lose(s: State, delta: real): (r: State)
    ensures r.stance.leg.None? <==> s.stance.leg.None? || s.stance.pendingMs + delta >= STANCE_LOSS_MS
    ensures s.stance.pendingMs + delta >= STANCE_LOSS_MS ==> r.stance == NoStance && r.current == NoHold
    ensures s.stance.pendingMs + delta < STANCE_LOSS_MS ==>
      r.stance.leg == s.stance.leg && r.current == s.current
    ensures r.testStart == s.testStart && r.lastTimestamp == s.lastTimestamp
    ensures r.best.holdMs >= s.best.holdMs
    ensures r.best != s.best ==>
      r.best == s.current && s.current.holdMs > s.best.holdMs && r.bestLeg == s.stance.leg
  {
    var pendingMs := s.stance.pendingMs + delta;
    if pendingMs >= STANCE_LOSS_MS then
      var s1 := if s.current.holdMs > s.best.holdMs
                then s.(best := s.current, bestLeg := s.stance.leg) else s;
      s1.(stance := NoStance, current := NoHold)
    else s.(stance := s.stance.(pendingMs := pendingMs))
  }

  /** A stance held and confirmed by the frame: the hold grows by `delta`,
      a sample is added, and a hold strictly longer than the best so far
      becomes the best, buffer and leg included. */
  function Keep(s: State, lm: Frame, leg: Leg, elapsed: real, delta: real): (r: State)
    requires Complete(lm)
    ensures r.stance == s.stance.(pendingMs := 0.0)
    ensures r.current.holdMs == s.current.holdMs + delta
    ensures r.current.metrics == s.current.metrics + [TakeSample(lm, leg, elapsed)]
    ensures r.testStart == s.testStart && r.lastTimestamp == s.lastTimestamp
    ensures r.best.holdMs >= s.best.holdMs && r.current.holdMs <= r.best.holdMs
    ensures r.best != s.best ==> r.best == r.current && r.bestLeg == Some(leg)
  {
    var current := Hold(s.current.holdMs + delta, s.current.metrics + [TakeSample(lm, leg, elapsed)]);
    var s1 := s.(stance := s.stance.(pendingMs := 0.0), current := current);
    if current.holdMs > s.best.holdMs then s1.(best := current, bestLeg := Some(leg)) else s1
  }

  /** The stance part of `updateTPoseBalance` for a frame `elapsed` ms into
      the test, `delta` ms after the previous one. */
  function Balance(s: State, lm: Frame, elapsed: real, delta: real): (r: State)
    requires Complete(lm)
    ensures r.testStart == s.testStart && r.lastTimestamp == s.lastTimestamp
    ensures r.best.holdMs >= s.best.holdMs
    ensures s.stance.leg.Some? && r.stance.leg.Some? ==> r.stance.leg == s.stance.leg
    ensures s.stance.leg.None? && r.stance.leg.Some? ==> r.stance.leg == Candidate(lm)
  {
    var cand := Candidate(lm);
    match s.stance.leg
    case None => Acquire(s, cand, delta)
    case Some(leg) => if cand != Some(leg) then Lose(s, delta) else Keep(s, lm, leg, elapsed, delta)
  }

  /** `updateTPoseBalance(lm, ..., inCorrectPosition)` for a frame at time
      `now`; the flag is the `onTestFinish()` call made once the 10-second
      window has passed. */
  function Update(s: State, lm: Frame, now: real, inPosition: bool): (r: (State, bool))
    requires Complete(lm)
    ensures !Truthy(s.testStart) || !inPosition ==> r == (s, false)
    ensures r.1 <==> Truthy(s.testStart) && inPosition && now - s.testStart.value > SINGLE_LEG_TEST_WINDOW
    ensures r.1 ==> r.0 == s.(lastTimestamp := Some(now))
    ensures r.0.testStart == s.testStart && r.0.best.holdMs >= s.best.holdMs
  {
    if !Truthy(s.testStart) || !inPosition then (s, false)
    else
      var elapsed := now - s.testStart.value;
      var delta := Delta(s, now);
      var s1 := s.(lastTimestamp := Some(now));
      if elapsed > SINGLE_LEG_TEST_WINDOW then (s1, true)
      else (Balance(s1, lm, elapsed, delta), false)
  }

  // ------------------------------------------------------------ properties

  /** A stance is adopted exactly when the frame repeats the pending
      candidate and the wait, with this frame's delta, reaches 400 ms; the
      adopted leg is that candidate and the new hold starts at 0. */
  lemma AdoptionNeedsConfirm(s: State, lm: Frame, now: real)
    requires Complete(lm) && Truthy(s.testStart) && s.stance.leg.None?
    requires now - s.testStart.value <= SINGLE_LEG_TEST_WINDOW
    ensures var r := Update(s, lm, now, true).0;
      (r.stance.leg.Some? <==>
        (Candidate(lm).Some? && s.stance.pending == Candidate(lm) &&
         s.stance.pendingMs + Delta(s, now) >= STANCE_CONFIRM_MS)) &&
      (r.stance.leg.Some? ==> r.stance.leg == Candidate(lm) && r.current.holdMs == 0.0)
  {
  }

  /** Without a stance, a frame whose candidate differs from the pending one
      (or is missing) restarts the wait at 0. */
  lemma ChangedCandidateRestartsWait(s: State, lm: Frame, now: real)
    requires Complete(lm) && Truthy(s.testStart) && s.stance.leg.None?
    requires now - s.testStart.value <= SINGLE_LEG_TEST_WINDOW
    requires Candidate(lm) != s.stance.pending || Candidate(lm).None?
    ensures Update(s, lm, now, true).0.stance == Stance(None, Candidate(lm), 0.0)
  {
  }

  /** A held stance is released exactly when the frame disagrees with it
      and the disagreement, with this frame's delta, reaches 450 ms; release
      clears the stance and empties the current hold. */
  lemma ReleaseNeedsLoss(s: State, lm: Frame, now: real)
    requires Complete(lm) && Truthy(s.testStart) && s.stance.leg.Some?
    requires now - s.testStart.value <= SINGLE_LEG_TEST_WINDOW
    ensures var r := Update(s, lm, now, true).0;
      (r.stance.leg.None? <==>
        (Candidate(lm) != s.stance.leg && s.stance.pendingMs + Delta(s, now) >= STANCE_LOSS_MS)) &&
      (r.stance.leg.None? ==> r.stance == NoStance && r.current == NoHold)
  {
  }

  /** The consistency the state keeps between frames: the current hold
      never exceeds the best one; without a stance there is no current hold;
      the best buffer is empty exactly when the best hold is 0; a stance
      leaves nothing pending. */
  predicate Inv(s: State)
  {
    0.0 <= s.best.holdMs && s.current.holdMs <= s.best.holdMs &&
    (s.stance.leg.None? ==> s.current == NoHold) &&
    (s.stance.leg.Some? ==> s.stance.pending.None?) &&
    (s.best.metrics == [] <==> s.best.holdMs == 0.0) &&
    (s.bestLeg.Some? <==> s.best.metrics != [])
  }

  lemma InitialInv()
    ensures Inv(Initial)
    ensures forall now :: Inv(Start(now))
  {
  }

  lemma {:induction false} UpdateKeepsInv(s: State, lm: Frame, now: real, inPosition: bool)
    requires Complete(lm) && Inv(s)
    ensures Inv(Update(s, lm, now, inPosition).0)
  {
  }

  /** `bestHoldMs` never decreases, and the best hold changes only to a
      strictly longer one, copied from the current buffer as it stands
      after the frame. */
  lemma BestHoldOnlyGrows(s: State, lm: Frame, now: real, inPosition: bool)
    requires Complete(lm) && Inv(s)
    ensures var r := Update(s, lm, now, inPosition).0;
      r.best.holdMs >= s.best.holdMs &&
      (r.best != s.best ==> r.best.holdMs > s.best.holdMs && r.best == r.current)
  {
  }

  /** Since the current hold never exceeds the best one, releasing a stance
      never changes the best hold: the comparison made at release is
      always false. */
  lemma ReleaseKeepsBest(s: State, lm: Frame, now: real, inPosition: bool)
    requires Complete(lm) && Inv(s) && s.stance.leg.Some?
    requires Update(s, lm, now, inPosition).0.stance.leg.None?
    ensures Update(s, lm, now, inPosition).0.best == s.best
    ensures Update(s, lm, now, inPosition).0.bestLeg == s.bestLeg
  {
  }

  /** One input frame of a run. */
  datatype Tick = Tick(lm: Frame, now: real, inPosition: bool)

  predicate AllComplete(ts: seq<Tick>)
  {
    forall i :: 0 <= i < |ts| ==> Complete(ts[i].lm)
  }

  function Run(s: State, ts: seq<Tick>): State
    requires AllComplete(ts)
    decreases |ts|
  {
    if ts == [] then s else Run(Update(s, ts[0].lm, ts[0].now, ts[0].inPosition).0, ts[1..])
  }

  /** Over any run of frames the best hold never shrinks. */
  lemma {:induction false} BestHoldRunMonotone(s: State, ts: seq<Tick>)
    requires Inv(s) && AllComplete(ts)
    ensures Inv(Run(s, ts))
    ensures Run(s, ts).best.holdMs >= s.best.holdMs
    decreases |ts|
  {
    if ts != [] {
      var s1 := Update(s, ts[0].lm, ts[0].now, ts[0].inPosition).0;
      UpdateKeepsInv(s, ts[0].lm, ts[0].now, ts[0].inPosition);
      BestHoldOnlyGrows(s, ts[0].lm, ts[0].now, ts[0].inPosition);
      BestHoldRunMonotone(s1, ts[1..]);
    }
  }

  /** Frames in position, inside the window, all reading the same candidate
      `c`, at non-zero times. */
  predicate SteadyCandidate(s: State, ts: seq<Tick>, c: Leg)
    requires AllComplete(ts)
  {
    Truthy(s.testStart) &&
    forall i :: 0 <= i < |ts| ==>
      ts[i].inPosition && ts[i].now != 0.0 && Candidate(ts[i].lm) == Some(c) &&
      ts[i].now - s.testStart.value <= SINGLE_LEG_TEST_WINDOW
  }

  /** The wait is measured in elapsed time: while the pending candidate `c`
      keeps being read, the wait equals the time since the last frame
      before the run plus what was already waited, and no stance is adopted
      as long as that stays under 400 ms. */
  lemma {:induction false} PendingCountsElapsedTime(s: State, ts: seq<Tick>, c: Leg)
    requires AllComplete(ts) && SteadyCandidate(s, ts, c) && ts != []
    requires s.stance == Stance(None, Some(c), s.stance.pendingMs) && Truthy(s.lastTimestamp)
    requires forall i :: 0 <= i < |ts| ==>
      s.stance.pendingMs + (ts[i].now - s.lastTimestamp.value) < STANCE_CONFIRM_MS
    ensures Run(s, ts).stance ==
      Stance(None, Some(c), s.stance.pendingMs + (ts[|ts| - 1].now - s.lastTimestamp.value))
    ensures Run(s, ts).lastTimestamp == Some(ts[|ts| - 1].now)
    decreases |ts|
  {
    var s1 := Update(s, ts[0].lm, ts[0].now, ts[0].inPosition).0;
    assert s1.stance == Stance(None, Some(c), s.stance.pendingMs + (ts[0].now - s.lastTimestamp.value));
    assert s1.lastTimestamp == Some(ts[0].now) && s1.testStart == s.testStart;
    if |ts| > 1 {
      var rest := ts[1..];
      forall i | 0 <= i < |rest|
        ensures s1.stance.pendingMs + (rest[i].now - s1.lastTimestamp.value) < STANCE_CONFIRM_MS
      {
        assert rest[i] == ts[i + 1];
      }
      forall i | 0 <= i < |rest|
        ensures rest[i].inPosition && rest[i].now != 0.0 && Candidate(rest[i].lm) == Some(c) &&
                rest[i].now - s1.testStart.value <= SINGLE_LEG_TEST_WINDOW
      {
        assert rest[i] == ts[i + 1];
      }
      PendingCountsElapsedTime(s1, rest, c);
      assert Run(s, ts) == Run(s1, rest);
    } else {
      assert Run(s, ts) == Run(s1, ts[1..]);
    }
  }

  // --------------------------------------------------------------- scores

  /** Stance knee: 0 at 140 degrees or less, 1 from 170 degrees. */
  function StanceKneeQuality(k: real): (q: real)
    ensures 0.0 <= q <= 1.0
    ensures q == 1.0 <==> k >= 170.0
    ensures q == 0.0 <==> k <= 140.0
  {
    Clamp((k - 140.0) / 30.0, 0.0, 1.0)
  }

  /** Torso: 1 for a straight torso, 0 from 30 degrees of deviation. */
  function TorsoQuality(dev: real): (q: real)
    ensures 0.0 <= q <= 1.0
    ensures q == 1.0 <==> dev <= 0.0
    ensures q == 0.0 <==> dev >= 30.0
  {
    Clamp((30.0 - dev) / 30.0, 0.0, 1.0)
  }

  /** Sway: 1 with none, 0 from 0.2 of the frame width. */
  function SwayQuality(sway: real): (q: real)
    ensures 0.0 <= q <= 1.0
    ensures q == 1.0 <==> sway <= 0.0
    ensures q == 0.0 <==> sway >= 0.2
  {
    Clamp((0.2 - sway) / 0.2, 0.0, 1.0)
  }

  /** Lifted-hip quality: full up to 70 degrees, then falling through 0.75
      at 90 and 0.5 at 110 to 0 at 140 degrees. */
  function HipAngleQuality(a: real): (q: real)
    ensures 0.0 <= q <= 1.0
    ensures q == 1.0 <==> a <= 70.0
    ensures q == 0.0 <==> a >= 140.0
  {
    var raw :=
      if a <= 70.0 then 1.0
      else if a <= 90.0 then 1.0 - (a - 70.0) / 80.0
      else if a <= 110.0 then 0.75 - (a - 90.0) / 80.0
      else if a <= 140.0 then 0.5 - (a - 110.0) / 60.0
      else 0.0;
    Clamp(raw, 0.0, 1.0)
  }

  /** A higher thigh (smaller hip angle) never scores worse. */
  lemma HipAngleQualityMonotone(higher: real, lower: real)
    requires higher <= lower
    ensures HipAngleQuality(higher) >= HipAngleQuality(lower)
  {
  }

  /** Lifted-knee quality: 1 at 90 degrees, at least 0.5 within 70 to 110,
      at most 0.75 outside that band. */
  function LiftedKneeQuality(k: real): (q: real)
    ensures 0.0 <= q <= 1.0
    ensures q == 1.0 <==> k == 90.0
    ensures 70.0 <= k <= 110.0 ==> q >= 0.5
    ensures !(70.0 <= k <= 110.0) ==> q <= 0.75
  {
    var raw :=
      if 70.0 <= k <= 110.0 then 1.0 - Abs(k - 90.0) / 40.0
      else if k < 70.0 then Clamp(k / 70.0, 0.0, 0.75)
      else Clamp((180.0 - k) / 70.0, 0.0, 0.75);
    Clamp(raw, 0.0, 1.0)
  }

  /** The five per-sample averages of a hold buffer. */
  datatype Averages = Averages(stanceKnee: real, liftedKnee: real, liftedHipAngle: real,
                               torsoDeviation: real, sway: real)

  function Mean(xs: seq<real>): real
    requires xs != []
  {
    Sum(xs) / |xs| as real
  }

  function Average(ms: seq<HoldSample>): Averages
    requires ms != []
  {
    Averages(
      Mean(seq(|ms|, i requires 0 <= i < |ms| => ms[i].stanceKnee)),
      Mean(seq(|ms|, i requires 0 <= i < |ms| => ms[i].liftedKnee)),
      Mean(seq(|ms|, i requires 0 <= i < |ms| => ms[i].liftedHipAngle)),
      Mean(seq(|ms|, i requires 0 <= i < |ms| => ms[i].torsoDeviation)),
      Mean(seq(|ms|, i requires 0 <= i < |ms| => ms[i].sway)))
  }

  /** The form score, 0 to 100: 45% lifted hip, 25% lifted knee, 15% stance
      knee, 10% torso, 5% sway. */
  function FormScore(avg: Averages): (f: int)
    ensures 0 <= f <= 100
    ensures HipAngleQuality(avg.liftedHipAngle) == 0.0 && LiftedKneeQuality(avg.liftedKnee) == 0.0 ==> f <= 30
  {
    var weighted := StanceKneeQuality(avg.stanceKnee) * 0.15 + TorsoQuality(avg.torsoDeviation) * 0.10 +
                    SwayQuality(avg.sway) * 0.05 + HipAngleQuality(avg.liftedHipAngle) * 0.45 +
                    LiftedKneeQuality(avg.liftedKnee) * 0.25;
    var c := Clamp(weighted, 0.0, 1.0);
    RoundWithin(c * 100.0, 0, 100);
    Round(c * 100.0)
  }

  /** The final score of a lifted hold: 0 when neither the hip nor the knee
      of the lifted leg scores; a hold under 5 s scales the form score by
      the fraction of 5 s held and halves it; a valid hold earns up to 20
      points for holding 10 s plus 80% of the form score. */
  function FinalScore(liftQuality: real, form: int, holdSec: real): (r: int)
    requires 0 <= form <= 100 && holdSec >= 0.0
    ensures 0 <= r <= 100
    ensures liftQuality != 0.0 && holdSec < MIN_VALID_HOLD_SECONDS ==> r <= Round(form as real * 0.5)
    ensures liftQuality != 0.0 && holdSec >= MIN_VALID_HOLD_SECONDS ==> r >= Round(10.0 + form as real * 0.8)
  {
    if liftQuality == 0.0 then 0
    else if holdSec < MIN_VALID_HOLD_SECONDS then
      var x := form as real * (holdSec / MIN_VALID_HOLD_SECONDS) * 0.5;
      PenaltyBounds(form as real, holdSec);
      RoundMonotone(x, form as real * 0.5);
      RoundWithin(x, 0, 50);
      Round(x)
    else
      var x := Min(1.0, holdSec / 10.0) * 100.0 * 0.2 + form as real * 0.8;
      BonusBounds(form as real, holdSec);
      RoundWithin(x, 0, 100);
      RoundMonotone(10.0 + form as real * 0.8, x);
      Round(x)
  }

  /** A hold under 5 s keeps between none and half of the form score. */
  lemma PenaltyBounds(form: real, holdSec: real)
    requires 0.0 <= form <= 100.0 && 0.0 <= holdSec < MIN_VALID_HOLD_SECONDS
    ensures 0.0 <= form * (holdSec / MIN_VALID_HOLD_SECONDS) * 0.5 <= form * 0.5
  {
    var penalty := holdSec / MIN_VALID_HOLD_SECONDS;
    DivLower(holdSec, 0.0, MIN_VALID_HOLD_SECONDS);
    DivUpper(holdSec, 1.0, MIN_VALID_HOLD_SECONDS);
    MulMono(0.0, penalty, form);
    MulMono(penalty, 1.0, form);
    var fp := form * penalty;
    assert 0.0 <= fp <= form;
  }

  /** A hold of 5 s or more earns a hold bonus between 10 and 20 points. */
  lemma BonusBounds(form: real, holdSec: real)
    requires 0.0 <= form <= 100.0 && holdSec >= MIN_VALID_HOLD_SECONDS
    ensures 10.0 + form * 0.8 <= Min(1.0, holdSec / 10.0) * 100.0 * 0.2 + form * 0.8 <= 100.0
  {
    DivLower(holdSec, 0.5, 10.0);
  }

  /** The object `finishTPoseBalanceTest()` returns. `liftedHipAngle` and
      `isValid` are absent from the empty result. */
  datatype TPoseResult = TPoseResult(
    stanceKnee: int,
    liftedKnee: int,
    liftedHipAngle: Option<int>,
    torsoDeviation: int,
    sway: real,
    holdTime: real,
    formScore: int,
    finalScore: int,
    stanceLeg: Option<Leg>,
    isValid: Option<bool>)

  /** `finishTPoseBalanceTest()`: computed from the best hold only. An
      empty best buffer gives all zeros; a lifted-hip average of 160 degrees
      or more means the leg was not lifted and scores 0; the result is
      valid exactly when the best hold lasted 5 s. */
  function Finish(s: State): (r: TPoseResult)
    requires s.best.holdMs >= 0.0
    ensures s.best.metrics == [] ==>
      r.formScore == 0 && r.finalScore == 0 && r.holdTime == 0.0 && r.isValid.None?
    ensures 0 <= r.formScore <= 100 && 0 <= r.finalScore <= 100
    ensures s.best.metrics != [] ==>
      r.isValid == Some(Average(s.best.metrics).liftedHipAngle < 160.0 &&
                        s.best.holdMs / 1000.0 >= MIN_VALID_HOLD_SECONDS)
    ensures s.best.metrics != [] && Average(s.best.metrics).liftedHipAngle >= 160.0 ==>
      r.formScore == 0 && r.finalScore == 0
    ensures s.best.metrics != [] && Average(s.best.metrics).liftedHipAngle < 160.0 ==>
      r.formScore == FormScore(Average(s.best.metrics)) &&
      r.finalScore == FinalScore(HipAngleQuality(Average(s.best.metrics).liftedHipAngle) +
                                 LiftedKneeQuality(Average(s.best.metrics).liftedKnee),
                                 r.formScore, s.best.holdMs / 1000.0)
    ensures r.isValid == Some(false) ==> r.finalScore <= Round(r.formScore as real * 0.5)
    ensures r.stanceLeg == if s.bestLeg.Some? then s.bestLeg else s.stance.leg
  {
    var leg := if s.bestLeg.Some? then s.bestLeg else s.stance.leg;
    var ms := s.best.metrics;
    if ms == [] then TPoseResult(0, 0, None, 0, 0.0, 0.0, 0, 0, leg, None)
    else
      var avg := Average(ms);
      var holdSec := s.best.holdMs / 1000.0;
      var holdTime := RoundTo(holdSec, 10.0);
      var isValid := holdSec >= MIN_VALID_HOLD_SECONDS;
      var sway := RoundTo(avg.sway, 1000.0);
      if !(avg.liftedHipAngle < 160.0) then
        TPoseResult(Round(avg.stanceKnee), Round(avg.liftedKnee), Some(Round(avg.liftedHipAngle)),
                    Round(avg.torsoDeviation), sway, holdTime, 0, 0, leg, Some(false))
      else
        var form := FormScore(avg);
        var lift := HipAngleQuality(avg.liftedHipAngle) + LiftedKneeQuality(avg.liftedKnee);
        TPoseResult(Round(avg.stanceKnee), Round(avg.liftedKnee), Some(Round(avg.liftedHipAngle)),
                    Round(avg.torsoDeviation), sway, holdTime, form,
                    FinalScore(lift, form, holdSec), leg, Some(isValid))
  }

  /** `tPoseBalanceFinalScore(result)`: the result's final score, 0
      without a result. */
  function TPoseBalanceFinalScore(result: Option<TPoseResult>): (score: int)
    ensures result.None? ==> score == 0
    ensures result.Some? ==> score == result.value.finalScore
  {
    if result.Some? then result.value.finalScore else 0
  }

  /** A finished test scores within [0, 100], 0 without a best hold, an
      invalid one at most half its form score, and a valid one with a
      scoring lift at least 10 points plus 80% of its form score. */
  lemma FinishedScore(s: State)
    requires Inv(s)
    ensures 0 <= TPoseBalanceFinalScore(Some(Finish(s))) <= 100
    ensures s.best.metrics == [] ==> TPoseBalanceFinalScore(Some(Finish(s))) == 0
    ensures Finish(s).isValid == Some(false) ==>
      TPoseBalanceFinalScore(Some(Finish(s))) <= Round(Finish(s).formScore as real * 0.5)
    ensures Finish(s).isValid == Some(true) && s.best.metrics != [] &&
            HipAngleQuality(Average(s.best.metrics).liftedHipAngle) +
            LiftedKneeQuality(Average(s.best.metrics).liftedKnee) != 0.0 ==>
      TPoseBalanceFinalScore(Some(Finish(s))) >= Round(10.0 + Finish(s).formScore as real * 0.8)
  {
  }

  // ------------------------------------------------------------- the state

  /** `singleLegStanceState`, the stance debounce and the two hold buffers
      held as record-valued fields. */
  class Balancer {
    var testStart: Option<real>
    var lastTimestamp: Option<real>
    var stance: Stance
    var current: Hold
    var best: Hold
    var bestLeg: Option<Leg>

    function Model(): State
      reads this
    {
      State(testStart, lastTimestamp, stance, current, best, bestLeg)
    }

    constructor ()
      ensures Model() == Initial
    {
      testStart, lastTimestamp := None, None;
      stance, current, best, bestLeg := NoStance, NoHold, NoHold, None;
    }

    /** `startTPoseBalanceTest()` */
    method StartTPoseBalanceTest(now: real)
      modifies this
      ensures Model() == Start(now)
    {
      testStart, lastTimestamp := Some(now), Some(now);
      stance, current, best, bestLeg := NoStance, NoHold, NoHold, None;
    }

    /** `resetTPoseBalanceState()` */
    method ResetTPoseBalanceState()
      modifies this
      ensures Model() == Initial
    {
      testStart, lastTimestamp := None, None;
      stance, current, best, bestLeg := NoStance, NoHold, NoHold, None;
    }

    /** `updateTPoseBalance(lm, ...)`: one camera frame at time `now`;
        `finished` is the `onTestFinish()` call. */
    method UpdateTPoseBalance(lm: Frame, now: real, inPosition: bool) returns (finished: bool)
      requires Complete(lm)
      modifies this
      ensures (Model(), finished) == Update(old(Model()), lm, now, inPosition)
    {
      finished := false;
      if !Truthy(testStart) || !inPosition {
        return;
      }
      var elapsed := now - testStart.value;
      var delta := if Truthy(lastTimestamp) then now - lastTimestamp.value else 0.0;
      lastTimestamp := Some(now);
      if elapsed > SINGLE_LEG_TEST_WINDOW {
        finished := true;
        return;
      }
      var cand := Candidate(lm);
      if stance.leg.None? {
        if cand.None? {
          stance := stance.(pending := None, pendingMs := 0.0);
          return;
        }
        if stance.pending == cand {
          stance := stance.(pendingMs := stance.pendingMs + delta);
          if stance.pendingMs >= STANCE_CONFIRM_MS {
            stance := Stance(cand, None, 0.0);
            current := current.(holdMs := 0.0);
          }
        } else {
          stance := stance.(pending := cand, pendingMs := 0.0);
        }
        return;
      }
      var leg := stance.leg.value;
      if cand != Some(leg) {
        stance := stance.(pendingMs := stance.pendingMs + delta);
        if stance.pendingMs >= STANCE_LOSS_MS {
          if current.holdMs > best.holdMs {
            best := current;
            bestLeg := stance.leg;
          }
          stance := NoStance;
          current := NoHold;
        }
        return;
      }
      stance := stance.(pendingMs := 0.0);
      current := Hold(current.holdMs + delta, current.metrics + [TakeSample(lm, leg, elapsed)]);
      if current.holdMs > best.holdMs {
        best := current;
        bestLeg := Some(leg);
      }
    }

  }
}
