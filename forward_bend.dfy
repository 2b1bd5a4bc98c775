/** The forward-bend test of forward-bend-scoring-logic-1meter.js. While the
    hip angle is under 160 degrees the user is bending and the hold grows;
    a 500 ms grace period bridges short straightenings before the hold is
    lost. The deepest bend's metrics, the longest hold and whether a hold
    ever reached one second are kept for the result. */
module ForwardBend {
  import opened Common
  import opened Geometry

  const FORWARD_BEND_WINDOW: real := 9000.0
  const HOLD_REQUIRED_MS: real := 1000.0
  const HOLD_GRACE_MS: real := 500.0
  const BENDING_HIP_ANGLE: real := 160.0

  /** The metrics object of `calculateForwardBendMetrics`. */
  datatype BendMetrics = BendMetrics(
    hipAngle: real,
    htRatio: real,
    kneeBend: real,
    reachDistance: real,
    sway: real,
    hipFlexion: real,
    thoracicFlexion: real)

  /** `calculateForwardBendMetrics(lm)`, on the ungated angle that gives 0
      for a zero-length segment: the mean of the two shoulder-hip-knee
      angles, the hip-to-thoracic ratio, the knee bend of the more bent
      knee, the reach and the hip's sway over the ankles. */
  function MetricsOf(lm: Frame): (m: BendMetrics)
    requires Complete(lm)
    ensures 0.0 <= m.hipAngle <= 180.0
    ensures 0.0 <= m.kneeBend <= 180.0
    ensures m.reachDistance >= 0.0 && m.sway >= 0.0 && m.htRatio >= 0.0
  {
    var shoulderMid := Midpoint(At(lm, 11), At(lm, 12));
    var hipMid := Midpoint(At(lm, 23), At(lm, 24));
    var kneeMid := Midpoint(At(lm, 25), At(lm, 26));
    var ankleMid := Midpoint(At(lm, 27), At(lm, 28));
    var hipAngleL := BendAngle(ToVec(At(lm, 11)), ToVec(At(lm, 23)), ToVec(At(lm, 25)));
    var hipAngleR := BendAngle(ToVec(At(lm, 12)), ToVec(At(lm, 24)), ToVec(At(lm, 26)));
    var hipFlexion := BendAngle(shoulderMid, hipMid, kneeMid);
    var thoracicFlexion := BendAngle(shoulderMid, hipMid, ankleMid);
    var htRatio := if thoracicFlexion > 0.0 then hipFlexion / thoracicFlexion else 0.0;
    var kneeAngle := Min(BendAngle(ToVec(At(lm, 23)), ToVec(At(lm, 25)), ToVec(At(lm, 27))),
                         BendAngle(ToVec(At(lm, 24)), ToVec(At(lm, 26)), ToVec(At(lm, 28))));
    var wristY := (At(lm, 15).y + At(lm, 16).y) / 2.0;
    var ankleY := (At(lm, 27).y + At(lm, 28).y) / 2.0;
    var standingHeight := Abs(ankleY - At(lm, 0).y);
    var reach := if standingHeight > 0.0 then Abs(wristY - ankleY) / standingHeight else 1.0;
    var legLength := Abs(hipMid.y - ankleMid.y);
    var sway := if legLength > 0.0 then Abs(hipMid.x - ankleMid.x) / legLength else 0.0;
    BendMetrics((hipAngleL + hipAngleR) / 2.0, htRatio, 180.0 - kneeAngle, reach, sway,
                hipFlexion, thoracicFlexion)
  }

  function WristY(lm: Frame): real
    requires Complete(lm)
  {
    (At(lm, 15).y + At(lm, 16).y) / 2.0
  }

  /** `bestAttempt`, without the captured frame. */
  datatype BestAttempt = BestAttempt(wristY: real, holdMs: real, metrics: Option<BendMetrics>)

  /** `forwardBendState`, without the capture index and the voice flags. */
  datatype State = State(
    testStart: Option<real>,
    lastSampleTime: Option<real>,
    currentHoldMs: real,
    graceMsRemaining: real,
    isValid: bool,
    best: BestAttempt)

  const NoAttempt: BestAttempt := BestAttempt(-1.0, 0.0, None)

  /** `resetForwardBendState()` and the module's initial value. */
  const Initial: State := State(None, None, 0.0, 0.0, false, NoAttempt)

  /** `startForwardBendTest()` at time `now`. */
  function Start(now: real): State
  {
    State(Some(now), Some(now), 0.0, 0.0, false, NoAttempt)
  }

  /** Bending: the hold grows by `delta`, the grace period is refilled, the
      first bend or one reaching more than 0.01 lower than the best so far
      becomes the best attempt's metrics, the best hold follows the current
      one upwards, and a hold of one second makes the test valid. */
  function Bending(s: State, lm: Frame, delta: real): State
    requires Complete(lm)
  {
    var hold := s.currentHoldMs + delta;
    var wristY := WristY(lm);
    var best1 := if wristY > s.best.wristY + 0.01 || s.best.wristY == -1.0
                 then s.best.(wristY := wristY, metrics := Some(MetricsOf(lm))) else s.best;
    var best2 := if hold > best1.holdMs then best1.(holdMs := hold) else best1;
    s.(currentHoldMs := hold, graceMsRemaining := HOLD_GRACE_MS, best := best2,
       isValid := if hold >= HOLD_REQUIRED_MS then true else s.isValid)
  }

  /** Not bending: the grace period runs down, floored at 0, and the hold
      is lost only once it is used up. */
  function Straight(s: State, delta: real): State
  {
    var grace := Max(0.0, s.graceMsRemaining - delta);
    s.(graceMsRemaining := grace, currentHoldMs := if grace == 0.0 then 0.0 else s.currentHoldMs)
  }

  predicate IsBending(lm: Frame)
    requires Complete(lm)
  {
    MetricsOf(lm).hipAngle < BENDING_HIP_ANGLE
  }

  /** `updateForwardBend(lm, ..., inCorrectPosition)` for a frame at time
      `now`; the flag is the `onTestFinish()` call once the 9-second window
      has passed. */
  function Update(s: State, lm: Frame, now: real, inPosition: bool): (r: (State, bool))
    requires Complete(lm)
    ensures !Truthy(s.testStart) || !inPosition ==> r == (s, false)
    ensures r.1 <==> Truthy(s.testStart) && inPosition && now - s.testStart.value > FORWARD_BEND_WINDOW
    ensures r.1 ==> r.0 == s.(lastSampleTime := Some(now))
    ensures r.0.testStart == s.testStart && r.0.best.holdMs >= s.best.holdMs
    ensures r.0.best.holdMs == s.best.holdMs || r.0.best.holdMs == r.0.currentHoldMs
    ensures s.isValid ==> r.0.isValid
  {
    if !Truthy(s.testStart) || !inPosition then (s, false)
    else
      var elapsed := now - s.testStart.value;
      var delta := if Truthy(s.lastSampleTime) then now - s.lastSampleTime.value else 0.0;
      var s1 := s.(lastSampleTime := Some(now));
      if elapsed > FORWARD_BEND_WINDOW then (s1, true)
      else if IsBending(lm) then (Bending(s1, lm, delta), false)
      else (Straight(s1, delta), false)
  }

  // ------------------------------------------------------------ properties

  /** What the test keeps between frames: the best hold is at least the
      current one and never negative; a valid test has held one second; no
      best metrics means no bend was ever recorded. */
  predicate Inv(s: State)
  {
    0.0 <= s.best.holdMs && s.currentHoldMs <= s.best.holdMs &&
    (s.isValid ==> s.best.holdMs >= HOLD_REQUIRED_MS) &&
    (s.best.metrics.None? ==> s.best.wristY == -1.0)
  }

  lemma StartInv(now: real)
    ensures Inv(Initial) && Inv(Start(now))
  {
  }

  lemma UpdateKeepsInv(s: State, lm: Frame, now: real, inPosition: bool)
    requires Complete(lm) && Inv(s)
    ensures Inv(Update(s, lm, now, inPosition).0)
  {
  }

  /** A frame inside the window, in position, of a running test. */
  predicate Live(s: State, now: real, inPosition: bool)
  {
    Truthy(s.testStart) && inPosition && now - s.testStart.value <= FORWARD_BEND_WINDOW
  }

  /** A bending frame adds its delta to the hold and refills the grace
      period; a straight frame drains the grace period, floored at 0, and
      resets the hold exactly when the grace is used up. */
  lemma HoldAndGrace(s: State, lm: Frame, now: real)
    requires Complete(lm) && Live(s, now, true)
    ensures var r := Update(s, lm, now, true).0;
      var delta := if Truthy(s.lastSampleTime) then now - s.lastSampleTime.value else 0.0;
      (IsBending(lm) ==>
        r.currentHoldMs == s.currentHoldMs + delta && r.graceMsRemaining == HOLD_GRACE_MS) &&
      (!IsBending(lm) ==>
        r.graceMsRemaining == Max(0.0, s.graceMsRemaining - delta) &&
        (r.currentHoldMs == 0.0 <==> (r.graceMsRemaining == 0.0 || s.currentHoldMs == 0.0)) &&
        (r.graceMsRemaining > 0.0 ==> r.currentHoldMs == s.currentHoldMs))
  {
  }

  /** The best hold never shrinks, changes only to the current hold (so it
      is the longest hold seen) and, after a bending frame, covers the
      current hold; validity is never withdrawn, and is gained exactly by
      a bending frame whose hold reaches one second. */
  lemma BestHoldAndValidity(s: State, lm: Frame, now: real, inPosition: bool)
    requires Complete(lm)
    ensures var r := Update(s, lm, now, inPosition).0;
      r.best.holdMs >= s.best.holdMs &&
      (r.best.holdMs == s.best.holdMs || r.best.holdMs == r.currentHoldMs) &&
      (Live(s, now, inPosition) && IsBending(lm) ==> r.best.holdMs >= r.currentHoldMs) &&
      (s.isValid ==> r.isValid) &&
      (!s.isValid && r.isValid <==>
        (!s.isValid && Live(s, now, inPosition) && IsBending(lm) && r.currentHoldMs >= HOLD_REQUIRED_MS))
  {
  }

  /** The best metrics change only on a bending frame that is the first
      bend, or reaches more than 0.01 lower than the best so far, and then
      become that frame's metrics. */
  lemma BestMetricsOnlyDeeper(s: State, lm: Frame, now: real, inPosition: bool)
    requires Complete(lm)
    ensures var r := Update(s, lm, now, inPosition).0;
      r.best.metrics != s.best.metrics || r.best.wristY != s.best.wristY ==>
        Live(s, now, inPosition) && IsBending(lm) &&
        (WristY(lm) > s.best.wristY + 0.01 || s.best.wristY == -1.0) &&
        r.best.metrics == Some(MetricsOf(lm)) && r.best.wristY == WristY(lm)
  {
  }

  /** The first bending frame of a test always records its metrics. */
  lemma FirstBendRecorded(s: State, lm: Frame, now: real)
    requires Complete(lm) && Inv(s) && s.best.metrics.None?
    requires Live(s, now, true) && IsBending(lm)
    ensures Update(s, lm, now, true).0.best.metrics == Some(MetricsOf(lm))
  {
  }

  // --------------------------------------------------------------- scores

  /** The hip-angle deduction: none up to 70 degrees, then 1, 2.5, 5, 8
      and 9.5 points at 90, 110, 130, 150 and 160 degrees, linear between. */
  function HipPenalty(h: real): (p: real)
    ensures 0.0 <= p <= 9.5
    ensures h <= 70.0 ==> p == 0.0
    ensures 70.0 < h <= 90.0 ==> p <= 1.0
    ensures 90.0 < h <= 110.0 ==> 1.0 <= p <= 2.5
    ensures 110.0 < h <= 130.0 ==> 2.5 <= p <= 5.0
    ensures 130.0 < h <= 150.0 ==> 5.0 <= p <= 8.0
    ensures 150.0 < h ==> 8.0 <= p
  {
    if h <= 70.0 then 0.0
    else if h <= 90.0 then Scale01(h - 70.0, 0.0, 20.0) * 1.0
    else if h <= 110.0 then 1.0 + Scale01(h - 90.0, 0.0, 20.0) * 1.5
    else if h <= 130.0 then 2.5 + Scale01(h - 110.0, 0.0, 20.0) * 2.5
    else if h <= 150.0 then 5.0 + Scale01(h - 130.0, 0.0, 20.0) * 3.0
    else 8.0 + Scale01(h - 150.0, 0.0, 10.0) * 1.5
  }

  /** A deeper bend never costs more. */
  lemma HipPenaltyMonotone(deeper: real, shallower: real)
    requires deeper <= shallower
    ensures HipPenalty(deeper) <= HipPenalty(shallower)
  {
    Scale01Monotone(deeper - 70.0, shallower - 70.0, 0.0, 20.0);
    Scale01Monotone(deeper - 90.0, shallower - 90.0, 0.0, 20.0);
    Scale01Monotone(deeper - 110.0, shallower - 110.0, 0.0, 20.0);
    Scale01Monotone(deeper - 130.0, shallower - 130.0, 0.0, 20.0);
    Scale01Monotone(deeper - 150.0, shallower - 150.0, 0.0, 10.0);
  }

  /** The knee deduction: none up to 15 degrees of bend, up to 1 point at
      30 degrees, up to 2 points beyond. */
  function KneePenalty(k: real): (p: real)
    ensures 0.0 <= p <= 2.0
    ensures k <= 15.0 ==> p == 0.0
    ensures k > 30.0 ==> p >= 1.0
  {
    if k <= 15.0 then 0.0
    else if k <= 30.0 then Scale01(k, 15.0, 30.0) * 1.0
    else 1.0 + Scale01(k - 30.0, 0.0, 30.0) * 1.0
  }

  /** The sway deduction: up to half a point between 0.08 and 0.35. */
  function SwayPenalty(sway: real): (p: real)
    ensures 0.0 <= p <= 0.5
    ensures sway <= 0.08 ==> p == 0.0
  {
    Scale01(sway, 0.08, 0.35) * 0.5
  }

  /** Half a point each for a hip angle under 60 and a knee bend under 10. */
  function Bonus(m: BendMetrics): (b: real)
    ensures 0.0 <= b <= 1.0
    ensures b == 1.0 <==> m.hipAngle < 60.0 && m.kneeBend < 10.0
    ensures b == 0.0 <==> m.hipAngle >= 60.0 && m.kneeBend >= 10.0
  {
    (if m.hipAngle < 60.0 then 0.5 else 0.0) + (if m.kneeBend < 10.0 then 0.5 else 0.0)
  }

  /** `forwardBendFormScore(metrics)`: 0 without metrics or above 160
      degrees of hip angle; otherwise 10 less the deductions plus the
      bonuses, clamped to [0, 10]; a bend to 70 degrees with straight knees
      and no sway scores the full 10, a hip angle above 150 degrees at most
      2.5. */
  function FormScore(m: Option<BendMetrics>): (f: real)
    ensures 0.0 <= f <= 10.0
    ensures m.None? || m.value.hipAngle > BENDING_HIP_ANGLE ==> f == 0.0
    ensures m.Some? && m.value.hipAngle <= 70.0 && m.value.kneeBend <= 15.0 && m.value.sway <= 0.08 ==>
      f == 10.0
    ensures m.Some? && 150.0 < m.value.hipAngle ==> f <= 2.5
  {
    match m
    case None => 0.0
    case Some(mt) =>
      if mt.hipAngle > BENDING_HIP_ANGLE then 0.0
      else
        var score := 10.0 - HipPenalty(mt.hipAngle) - KneePenalty(mt.kneeBend) - SwayPenalty(mt.sway) + Bonus(mt);
        Clamp(score, 0.0, 10.0)
  }

  /** With the knee bend and the sway fixed, a deeper bend never scores
      lower. */
  lemma FormScoreDeeperNoWorse(m: BendMetrics, deeperHip: real)
    requires deeperHip <= m.hipAngle
    ensures FormScore(Some(m.(hipAngle := deeperHip))) >= FormScore(Some(m))
  {
    HipPenaltyMonotone(deeperHip, m.hipAngle);
  }

  /** The object `finishForwardBendTest()` returns: the best metrics with
      the test's validity, the best hold in ms and in 30-fps frames, and the
      form score scaled to [0, 1]. */
  datatype BendResult = BendResult(
    metrics: BendMetrics,
    isValid: bool,
    holdFrames: int,
    holdMs: real,
    form: real)

  /** `finishForwardBendTest()`: no result without a recorded bend. */
  function Finish(s: State): (r: Option<BendResult>)
    ensures r.None? <==> s.best.metrics.None?
    ensures r.Some? ==> (r.value.metrics == s.best.metrics.value && r.value.isValid == s.isValid &&
                         r.value.holdMs == s.best.holdMs && 0.0 <= r.value.form <= 1.0)
    ensures r.Some? ==> r.value.form == FormScore(s.best.metrics) / 10.0
  {
    match s.best.metrics
    case None => None
    case Some(m) =>
      Some(BendResult(m, s.isValid, Round((s.best.holdMs / 1000.0) * 30.0), s.best.holdMs,
                      FormScore(s.best.metrics) / 10.0))
  }

  /** `forwardBendFinalScore(result)`: 0 without a valid result or above 160
      degrees of hip angle; otherwise 15 points for the hold (full from one
      second) and 85 for the form, rounded. */
  function FinalScore(r: Option<BendResult>): (score: int)
    ensures r.None? || !r.value.isValid || r.value.metrics.hipAngle > BENDING_HIP_ANGLE ==> score == 0
    ensures r.Some? && r.value.holdMs >= 0.0 ==> 0 <= score <= 100
    ensures r.Some? && r.value.holdMs >= 0.0 && r.value.isValid &&
            r.value.metrics.hipAngle <= BENDING_HIP_ANGLE ==>
      Round(Min(1.0, r.value.holdMs / HOLD_REQUIRED_MS) * 15.0) <= score
  {
    if r.None? || !r.value.isValid then 0
    else if r.value.metrics.hipAngle > BENDING_HIP_ANGLE then 0
    else
      var completion := Min(1.0, r.value.holdMs / HOLD_REQUIRED_MS) * 15.0;
      var form := Clamp(r.value.form, 0.0, 1.0) * 85.0;
      ScoreTermsBounds(r.value.holdMs, r.value.form);
      Round(completion + form)
  }

  /** With a non-negative hold the completion and form terms add up to at
      most 100 and the completion term alone to no more than the sum. */
  lemma ScoreTermsBounds(holdMs: real, form: real)
    ensures var completion := Min(1.0, holdMs / HOLD_REQUIRED_MS) * 15.0;
      var x := completion + Clamp(form, 0.0, 1.0) * 85.0;
      Round(completion) <= Round(x) && (holdMs >= 0.0 ==> 0 <= Round(x) <= 100)
  {
    var completion := Min(1.0, holdMs / HOLD_REQUIRED_MS) * 15.0;
    var x := completion + Clamp(form, 0.0, 1.0) * 85.0;
    RoundMonotone(completion, x);
    if holdMs >= 0.0 {
      DivLower(holdMs, 0.0, HOLD_REQUIRED_MS);
      RoundWithin(x, 0, 100);
    }
  }

  /** The score of a finished test: a valid test has held one second, so
      its hold earns the full 15 points and its form decides the rest. */
  lemma FinishedScore(s: State)
    requires Inv(s) && s.best.metrics.Some? && s.isValid
    requires s.best.metrics.value.hipAngle <= BENDING_HIP_ANGLE
    ensures FinalScore(Finish(s)) == Round(15.0 + FormScore(s.best.metrics) / 10.0 * 85.0)
    ensures 15 <= FinalScore(Finish(s)) <= 100
  {
    var r := Finish(s).value;
    DivAtLeastOne(s.best.holdMs, HOLD_REQUIRED_MS);
    assert Min(1.0, r.holdMs / HOLD_REQUIRED_MS) == 1.0;
    assert Clamp(r.form, 0.0, 1.0) == r.form;
    RoundWithin(15.0 + r.form * 85.0, 15, 100);
  }

  // ------------------------------------------------------------- the state

  /** `forwardBendState`. */
  class ForwardBendTest {
    var testStart: Option<real>
    var lastSampleTime: Option<real>
    var currentHoldMs: real
    var graceMsRemaining: real
    var isValid: bool
    var best: BestAttempt

    function Model(): State
      reads this
    {
      State(testStart, lastSampleTime, currentHoldMs, graceMsRemaining, isValid, best)
    }

    constructor ()
      ensures Model() == Initial
    {
      testStart, lastSampleTime := None, None;
      currentHoldMs, graceMsRemaining, isValid := 0.0, 0.0, false;
      best := NoAttempt;
    }

    /** `startForwardBendTest()` */
    method StartForwardBendTest(now: real)
      modifies this
      ensures Model() == Start(now)
    {
      testStart := Some(now);
      best := NoAttempt;
      currentHoldMs := 0.0;
      lastSampleTime := testStart;
      isValid := false;
      graceMsRemaining := 0.0;
    }

    /** `resetForwardBendState()` */
    method ResetForwardBendState()
      modifies this
      ensures Model() == Initial
    {
      testStart, lastSampleTime := None, None;
      currentHoldMs, graceMsRemaining, isValid := 0.0, 0.0, false;
      best := NoAttempt;
    }

    /** `updateForwardBend(lm, ...)`: one camera frame at time `now`;
        `finished` is the `onTestFinish()` call. */
    method UpdateForwardBend(lm: Frame, now: real, inPosition: bool) returns (finished: bool)
      requires Complete(lm)
      modifies this
      ensures (Model(), finished) == Update(old(Model()), lm, now, inPosition)
    {
      finished := false;
      if !Truthy(testStart) || !inPosition {
        return;
      }
      var elapsed := now - testStart.value;
      var delta := if Truthy(lastSampleTime) then now - lastSampleTime.value else 0.0;
      lastSampleTime := Some(now);
      if elapsed > FORWARD_BEND_WINDOW {
        finished := true;
        return;
      }
      var metrics := MetricsOf(lm);
      var wristY := WristY(lm);
      if metrics.hipAngle < BENDING_HIP_ANGLE {
        currentHoldMs := currentHoldMs + delta;
        graceMsRemaining := HOLD_GRACE_MS;
        if wristY > best.wristY + 0.01 || best.wristY == -1.0 {
          best := best.(wristY := wristY, metrics := Some(metrics));
        }
        if currentHoldMs > best.holdMs {
          best := best.(holdMs := currentHoldMs);
        }
        if currentHoldMs >= HOLD_REQUIRED_MS {
          isValid := true;
        }
      } else {
        graceMsRemaining := Max(0.0, graceMsRemaining - delta);
        if graceMsRemaining == 0.0 {
          currentHoldMs := 0.0;
        }
      }
    }
  }
}
