/** The plank hold test of plank-scoring-logic-1meter.js. A body line
    within 20 degrees of straight with shoulders and hips level is a plank
    position; entering the plank needs 500 ms of it, leaving needs 600 ms
    out of it. Every frame held in the plank adds to the current hold and
    records a sample; the result scores the best hold and the average form. */
module Plank {
  import opened Common
  import opened Geometry

  const PLANK_TEST_WINDOW: real := 30000.0
  const PLANK_CONFIRM_MS: real := 500.0
  const PLANK_LOSS_MS: real := 600.0
  const MIN_VALID_HOLD_SECONDS: real := 10.0

  /** One entry of `metricsHistory`. */
  datatype PlankSample = PlankSample(
    bodyAngle: real,
    leftKnee: real,
    rightKnee: real,
    leftElbow: real,
    rightElbow: real,
    verticalAlignment: real,
    timestamp: real)

  /** The debounce and hold fields: `isInPlank`, `pendingMs`,
      `currentHoldMs` and `bestHoldMs`. */
  datatype Hold = Hold(isInPlank: bool, pendingMs: real, currentHoldMs: real, bestHoldMs: real)

  const NoHold: Hold := Hold(false, 0.0, 0.0, 0.0)

  /** `plankState`, without the feedback cooldown and warning flag no code
      reads. */
  datatype State = State(
    testStart: Option<real>,
    lastTimestamp: Option<real>,
    history: seq<PlankSample>,
    hold: Hold)

  /** `resetPlankState()` and the module's initial value. */
  const Initial: State := State(None, None, [], NoHold)

  /** `startPlankTest()` at time `now`. */
  function Start(now: real): State
  {
    State(Some(now), Some(now), [], NoHold)
  }

  /** A plank position: the ankle-hip-shoulder angle strictly between 160
      and 200 degrees and the hips less than 0.15 above or below the
      shoulders. */
  predicate IsPlankPosition(bodyAngle: real, verticalAlignment: real): (r: bool)
    ensures r ==> Abs(180.0 - bodyAngle) < 20.0
    ensures verticalAlignment >= 0.15 ==> !r
  {
    160.0 < bodyAngle < 200.0 && verticalAlignment < 0.15
  }

  /** The body line of a frame: the angle at the hip midpoint between the
      ankle and shoulder midpoints, and the vertical hip-shoulder gap. */
  function BodyLine(lm: Frame): (r: (real, real))
    requires Complete(lm)
    ensures r.1 >= 0.0
  {
    var shoulderMid := Midpoint(At(lm, 11), At(lm, 12));
    var hipMid := Midpoint(At(lm, 23), At(lm, 24));
    var ankleMid := Midpoint(At(lm, 27), At(lm, 28));
    (UngatedAngle(Some(ankleMid), Some(hipMid), Some(shoulderMid)), Abs(hipMid.y - shoulderMid.y))
  }

  /** The sample recorded for a held frame `elapsed` ms into the test. */
  function SampleOf(lm: Frame, elapsed: real): (m: PlankSample)
    requires Complete(lm)
    ensures (m.bodyAngle, m.verticalAlignment) == BodyLine(lm) && m.timestamp == elapsed
  {
    var (bodyAngle, verticalAlignment) := BodyLine(lm);
    PlankSample(bodyAngle,
                UngatedAngle(PV(lm, 23), PV(lm, 25), PV(lm, 27)),
                UngatedAngle(PV(lm, 24), PV(lm, 26), PV(lm, 28)),
                UngatedAngle(PV(lm, 11), PV(lm, 13), PV(lm, 15)),
                UngatedAngle(PV(lm, 12), PV(lm, 14), PV(lm, 16)),
                verticalAlignment, elapsed)
  }

  /** The confirm/loss debounce for one frame `delta` ms after the last:
      outside the plank an in-position frame adds to the wait and 500 ms
      enters the plank with a fresh hold, any other frame clears the wait;
      inside the plank an out-of-position frame adds to the wait and 600 ms
      leaves it, dropping the hold, and a plank frame clears the wait and
      extends the hold, raising the best hold when it is passed. */
  function Debounce(h: Hold, inPlankPosition: bool, delta: real): (r: Hold)
    ensures r.bestHoldMs >= h.bestHoldMs
    ensures r.isInPlank != h.isInPlank ==> r.currentHoldMs == 0.0 && r.pendingMs == 0.0
    ensures inPlankPosition && h.isInPlank ==>
      r.isInPlank && r.pendingMs == 0.0 && r.currentHoldMs == h.currentHoldMs + delta &&
      r.currentHoldMs <= r.bestHoldMs
    ensures r.bestHoldMs != h.bestHoldMs ==> r.bestHoldMs == r.currentHoldMs && r.isInPlank
    ensures !(inPlankPosition && h.isInPlank) ==> r.bestHoldMs == h.bestHoldMs
  {
    if !h.isInPlank then
      if !inPlankPosition then h.(pendingMs := 0.0)
      else if h.pendingMs + delta >= PLANK_CONFIRM_MS then
        h.(isInPlank := true, pendingMs := 0.0, currentHoldMs := 0.0)
      else h.(pendingMs := h.pendingMs + delta)
    else if !inPlankPosition then
      if h.pendingMs + delta >= PLANK_LOSS_MS then
        h.(isInPlank := false, pendingMs := 0.0, currentHoldMs := 0.0)
      else h.(pendingMs := h.pendingMs + delta)
    else
      var current := h.currentHoldMs + delta;
      h.(pendingMs := 0.0, currentHoldMs := current,
         bestHoldMs := if current > h.bestHoldMs then current else h.bestHoldMs)
  }

  function Delta(s: State, now: real): real
  {
    if Truthy(s.lastTimestamp) then now - s.lastTimestamp.value else 0.0
  }

  /** `updatePlank(lm, ..., inCorrectPosition)` for a frame at time `now`;
      the flag is `onTestFinish()` once the 30 s window has passed. A frame
      out of the correct position is ignored entirely, its time included. */
  function Update(s: State, lm: Frame, now: real, inPosition: bool): (r: (State, bool))
    requires Complete(lm)
    ensures !Truthy(s.testStart) || !inPosition ==> r == (s, false)
    ensures r.1 <==> Truthy(s.testStart) && inPosition && now - s.testStart.value > PLANK_TEST_WINDOW
    ensures r.1 ==> r.0 == s.(lastTimestamp := Some(now))
    ensures r.0.testStart == s.testStart && r.0.hold.bestHoldMs >= s.hold.bestHoldMs
    ensures r.0.history == s.history ||
      (|r.0.history| == |s.history| + 1 && r.0.history[..|s.history|] == s.history)
  {
    if !Truthy(s.testStart) || !inPosition then (s, false)
    else
      var elapsed := now - s.testStart.value;
      var s1 := s.(lastTimestamp := Some(now));
      if elapsed > PLANK_TEST_WINDOW then (s1, true)
      else
        var (bodyAngle, verticalAlignment) := BodyLine(lm);
        var pos := IsPlankPosition(bodyAngle, verticalAlignment);
        var holding := s.hold.isInPlank && pos;
        (s1.(hold := Debounce(s.hold, pos, Delta(s, now)),
             history := if holding then s.history + [SampleOf(lm, elapsed)] else s.history),
         false)
  }

  // ------------------------------------------------------------ properties

  /** Entering the plank: it happens exactly on a plank frame that brings
      the wait to 500 ms, and a frame out of plank position clears the
      wait. */
  lemma EntryNeedsConfirm(h: Hold, pos: bool, delta: real)
    requires !h.isInPlank
    ensures Debounce(h, pos, delta).isInPlank <==> pos && h.pendingMs + delta >= PLANK_CONFIRM_MS
    ensures !pos ==> Debounce(h, pos, delta).pendingMs == 0.0
    ensures Debounce(h, pos, delta).isInPlank ==> Debounce(h, pos, delta).currentHoldMs == 0.0
  {
  }

  /** Leaving the plank: it happens exactly on a frame out of plank position
      that brings the wait to 600 ms, and drops the current hold; a plank
      frame clears the wait. */
  lemma LeavingNeedsLoss(h: Hold, pos: bool, delta: real)
    requires h.isInPlank
    ensures !Debounce(h, pos, delta).isInPlank <==> !pos && h.pendingMs + delta >= PLANK_LOSS_MS
    ensures !Debounce(h, pos, delta).isInPlank ==> Debounce(h, pos, delta).currentHoldMs == 0.0
    ensures pos ==> Debounce(h, pos, delta).pendingMs == 0.0
  {
  }

  /** Every recorded sample was a plank position. */
  predicate SamplesInPlank(ms: seq<PlankSample>)
  {
    forall i :: 0 <= i < |ms| ==> IsPlankPosition(ms[i].bodyAngle, ms[i].verticalAlignment)
  }

  /** What the test keeps between frames: the best hold is non-negative
      and at least the current one, no hold runs outside the plank, and
      only plank positions are recorded. */
  predicate Inv(s: State)
  {
    0.0 <= s.hold.bestHoldMs && s.hold.currentHoldMs <= s.hold.bestHoldMs &&
    (!s.hold.isInPlank ==> s.hold.currentHoldMs == 0.0) &&
    SamplesInPlank(s.history)
  }

  lemma StartInv(now: real)
    ensures Inv(Initial) && Inv(Start(now))
  {
  }

  lemma DebounceKeepsHold(h: Hold, pos: bool, delta: real)
    requires 0.0 <= h.bestHoldMs && h.currentHoldMs <= h.bestHoldMs
    requires !h.isInPlank ==> h.currentHoldMs == 0.0
    ensures var r := Debounce(h, pos, delta);
      0.0 <= r.bestHoldMs && r.currentHoldMs <= r.bestHoldMs &&
      (!r.isInPlank ==> r.currentHoldMs == 0.0) && r.bestHoldMs >= h.bestHoldMs
  {
  }

  /** Every frame keeps the invariant; a sample is appended exactly on a
      frame held in the plank, and the best hold never decreases. */
  lemma UpdateKeepsInv(s: State, lm: Frame, now: real, inPosition: bool)
    requires Complete(lm) && Inv(s)
    ensures var r := Update(s, lm, now, inPosition).0;
      Inv(r) && r.hold.bestHoldMs >= s.hold.bestHoldMs &&
      (r.history == s.history || (|r.history| == |s.history| + 1 && r.history[..|s.history|] == s.history))
  {
    if Truthy(s.testStart) && inPosition && now - s.testStart.value <= PLANK_TEST_WINDOW {
      var (bodyAngle, verticalAlignment) := BodyLine(lm);
      var pos := IsPlankPosition(bodyAngle, verticalAlignment);
      DebounceKeepsHold(s.hold, pos, Delta(s, now));
      if s.hold.isInPlank && pos {
        var m := SampleOf(lm, now - s.testStart.value);
        var h := s.history + [m];
        assert h[..|s.history|] == s.history;
        assert forall i :: 0 <= i < |s.history| ==> h[i] == s.history[i];
      }
    }
  }

  /** A sample is recorded exactly on frames that are plank positions while
      the plank is held: entering frames record nothing. */
  lemma RecordedOnlyWhileHolding(s: State, lm: Frame, now: real)
    requires Complete(lm) && Truthy(s.testStart) && now - s.testStart.value <= PLANK_TEST_WINDOW
    ensures var r := Update(s, lm, now, true).0;
      var (b, v) := BodyLine(lm);
      (r.history != s.history <==> s.hold.isInPlank && IsPlankPosition(b, v))
  {
    var (b, v) := BodyLine(lm);
    if s.hold.isInPlank && IsPlankPosition(b, v) {
      assert |Update(s, lm, now, true).0.history| == |s.history| + 1;
    }
  }

  /** One input frame of a run. */
  datatype Tick = Tick(lm: Frame, now: real, inPosition: bool)

  predicate AllComplete(ts: seq<Tick>)
  {
    forall i :: 0 <= i < |ts| ==> Complete(ts[i].lm)
  }

  function Run(s: State, ts: seq<Tick>): State
    requires AllComplete(ts)
    decreases |ts|
  {
    if ts == [] then s else Run(Update(s, ts[0].lm, ts[0].now, ts[0].inPosition).0, ts[1..])
  }

  predicate PlankFrame(lm: Frame)
    requires Complete(lm)
  {
    var (b, v) := BodyLine(lm);
    IsPlankPosition(b, v)
  }

  /** Frames in correct position, inside the window, all plank positions,
      at non-zero times. */
  predicate SteadyPlank(s: State, ts: seq<Tick>)
    requires AllComplete(ts)
  {
    Truthy(s.testStart) &&
    forall i :: 0 <= i < |ts| ==>
      ts[i].inPosition && ts[i].now != 0.0 && PlankFrame(ts[i].lm) &&
      ts[i].now - s.testStart.value <= PLANK_TEST_WINDOW
  }

  /** The wait to enter is measured in elapsed time: along uninterrupted
      plank frames it is what was already waited plus the time since the
      frame before the run, and the plank is not entered while that stays
      under 500 ms. */
  lemma {:induction false} ConfirmCountsElapsedTime(s: State, ts: seq<Tick>)
    requires AllComplete(ts) && SteadyPlank(s, ts) && ts != []
    requires !s.hold.isInPlank && Truthy(s.lastTimestamp)
    requires forall i :: 0 <= i < |ts| ==>
      s.hold.pendingMs + (ts[i].now - s.lastTimestamp.value) < PLANK_CONFIRM_MS
    ensures !Run(s, ts).hold.isInPlank
    ensures Run(s, ts).hold.pendingMs == s.hold.pendingMs + (ts[|ts| - 1].now - s.lastTimestamp.value)
    ensures Run(s, ts).lastTimestamp == Some(ts[|ts| - 1].now)
    decreases |ts|
  {
    var s1 := Update(s, ts[0].lm, ts[0].now, ts[0].inPosition).0;
    assert s1.hold == s.hold.(pendingMs := s.hold.pendingMs + (ts[0].now - s.lastTimestamp.value));
    assert s1.lastTimestamp == Some(ts[0].now) && s1.testStart == s.testStart;
    if |ts| > 1 {
      var rest := ts[1..];
      forall i | 0 <= i < |rest|
        ensures s1.hold.pendingMs + (rest[i].now - s1.lastTimestamp.value) < PLANK_CONFIRM_MS
      {
        assert rest[i] == ts[i + 1];
      }
      forall i | 0 <= i < |rest|
        ensures rest[i].inPosition && rest[i].now != 0.0 && PlankFrame(rest[i].lm) &&
                rest[i].now - s1.testStart.value <= PLANK_TEST_WINDOW
      {
        assert rest[i] == ts[i + 1];
      }
      ConfirmCountsElapsedTime(s1, rest);
      assert Run(s, ts) == Run(s1, rest);
    } else {
      assert Run(s, ts) == Run(s1, ts[1..]);
    }
  }

  /** Over any run of frames the best hold never shrinks. */
  lemma {:induction false} BestHoldRunMonotone(s: State, ts: seq<Tick>)
    requires Inv(s) && AllComplete(ts)
    ensures Inv(Run(s, ts))
    ensures Run(s, ts).hold.bestHoldMs >= s.hold.bestHoldMs
    decreases |ts|
  {
    if ts != [] {
      UpdateKeepsInv(s, ts[0].lm, ts[0].now, ts[0].inPosition);
      BestHoldRunMonotone(Update(s, ts[0].lm, ts[0].now, ts[0].inPosition).0, ts[1..]);
    }
  }

  // ------------------------------------------------------------ the result

  /** The body-line quality as written: `(200 - |180 - a|) / 20`, clamped.
      Every angle in [0, 360] scores the full 1. */
  function BodyAngleQualityAsWritten(avgBodyAngle: real): (q: real)
    ensures 0.0 <= q <= 1.0
    ensures Abs(180.0 - avgBodyAngle) <= 180.0 ==> q == 1.0
  {
    DivAtLeastOneWhenBelow(Abs(180.0 - avgBodyAngle));
    Clamp((200.0 - Abs(180.0 - avgBodyAngle)) / 20.0, 0.0, 1.0)
  }

  lemma DivAtLeastOneWhenBelow(dev: real)
    ensures dev <= 180.0 ==> (200.0 - dev) / 20.0 >= 1.0
  {
    if dev <= 180.0 {
      DivAtLeastOne(200.0 - dev, 20.0);
    }
  }

  /** The body-line quality the scale evidently intends: 1 for a straight
      line, falling to 0 at 20 degrees off, the edge of a plank position. */
  function BodyAngleQuality(avgBodyAngle: real): (q: real)
    ensures 0.0 <= q <= 1.0
    ensures q == 1.0 <==> avgBodyAngle == 180.0
    ensures q == 0.0 <==> Abs(180.0 - avgBodyAngle) >= 20.0
  {
    var dev := Abs(180.0 - avgBodyAngle);
    DeviationQuality(dev);
    Clamp((20.0 - dev) / 20.0, 0.0, 1.0)
  }

  lemma DeviationQuality(dev: real)
    requires dev >= 0.0
    ensures Clamp((20.0 - dev) / 20.0, 0.0, 1.0) == 1.0 <==> dev == 0.0
    ensures Clamp((20.0 - dev) / 20.0, 0.0, 1.0) == 0.0 <==> dev >= 20.0
  {
  }

  /** A straighter body line never scores lower. */
  lemma BodyAngleQualityMonotone(a: real, b: real)
    requires Abs(180.0 - a) <= Abs(180.0 - b)
    ensures BodyAngleQuality(a) >= BodyAngleQuality(b)
  {
    DivMonotone(20.0 - Abs(180.0 - b), 20.0 - Abs(180.0 - a), 20.0);
  }

  /** The discrepancy: on a finished test every recorded body angle was a
      plank position, so the average lies strictly between 160 and 200
      and the as-written quality is always 1, whatever the line; the
      corrected quality still tells a 161-degree line from a straight one. */
  lemma BodyAngleQualityAlwaysFull(ms: seq<PlankSample>)
    requires SamplesInPlank(ms) && ms != []
    ensures BodyAngleQualityAsWritten(AverageBodyAngle(ms)) == 1.0
    ensures BodyAngleQualityAsWritten(161.0) == BodyAngleQualityAsWritten(180.0) == 1.0
    ensures BodyAngleQuality(161.0) < BodyAngleQuality(180.0)
  {
    var xs := seq(|ms|, i requires 0 <= i < |ms| => ms[i].bodyAngle);
    SumBounds(xs, 160.0, 200.0);
    DivLower(Sum(xs), 160.0, |ms| as real);
    DivUpper(Sum(xs), 200.0, |ms| as real);
  }

  function AverageBodyAngle(ms: seq<PlankSample>): real
    requires ms != []
  {
    Sum(seq(|ms|, i requires 0 <= i < |ms| => ms[i].bodyAngle)) / |ms| as real
  }

  function Mean(ms: seq<PlankSample>, f: PlankSample -> real): real
    requires ms != []
  {
    Sum(seq(|ms|, i requires 0 <= i < |ms| => f(ms[i]))) / |ms| as real
  }

  /** The form score, 0 to 100, from a body-line quality in [0, 1] and the
      other readings: 40% body line, 30% straight knees, 15% elbows, 15%
      level shoulders and hips. */
  function FormScoreOf(bodyQ: real, minKnee: real, minElbow: real, avgAlignment: real): (f: int)
    requires 0.0 <= bodyQ <= 1.0
    ensures 0 <= f <= 100
  {
    var kneeQ := Clamp((minKnee - 160.0) / 20.0, 0.0, 1.0);
    var elbowQ := Clamp((minElbow - 70.0) / 30.0, 0.0, 1.0);
    var alignQ := Clamp((0.15 - avgAlignment) / 0.15, 0.0, 1.0);
    var q := Clamp(bodyQ * 0.40 + kneeQ * 0.30 + elbowQ * 0.15 + alignQ * 0.15, 0.0, 1.0);
    RoundWithin(q * 100.0, 0, 100);
    Round(q * 100.0)
  }

  /** A better body line never lowers the form score. */
  lemma FormScoreOfMonotone(b1: real, b2: real, minKnee: real, minElbow: real, avgAlignment: real)
    requires 0.0 <= b1 <= b2 <= 1.0
    ensures FormScoreOf(b1, minKnee, minElbow, avgAlignment) <= FormScoreOf(b2, minKnee, minElbow, avgAlignment)
  {
    var kneeQ := Clamp((minKnee - 160.0) / 20.0, 0.0, 1.0);
    var elbowQ := Clamp((minElbow - 70.0) / 30.0, 0.0, 1.0);
    var alignQ := Clamp((0.15 - avgAlignment) / 0.15, 0.0, 1.0);
    var q1 := Clamp(b1 * 0.40 + kneeQ * 0.30 + elbowQ * 0.15 + alignQ * 0.15, 0.0, 1.0);
    var q2 := Clamp(b2 * 0.40 + kneeQ * 0.30 + elbowQ * 0.15 + alignQ * 0.15, 0.0, 1.0);
    RoundMonotone(q1 * 100.0, q2 * 100.0);
  }

  /** The form score as written: the body-line part comes from
      `BodyAngleQualityAsWritten`, so any average within 180 degrees of
      straight earns the whole 40%. */
  function FormScore(avgBody: real, minKnee: real, minElbow: real, avgAlignment: real): (f: int)
    ensures 0 <= f <= 100
    ensures Abs(180.0 - avgBody) <= 180.0 ==> f == FormScoreOf(1.0, minKnee, minElbow, avgAlignment)
  {
    FormScoreOf(BodyAngleQualityAsWritten(avgBody), minKnee, minElbow, avgAlignment)
  }

  /** The form score with the corrected body-line quality: never above the
      as-written score, and equal to it for a straight line. */
  function FormScoreCorrected(avgBody: real, minKnee: real, minElbow: real, avgAlignment: real): (f: int)
    ensures 0 <= f <= 100
    ensures f <= FormScore(avgBody, minKnee, minElbow, avgAlignment)
    ensures avgBody == 180.0 ==> f == FormScore(avgBody, minKnee, minElbow, avgAlignment)
  {
    var d := Abs(180.0 - avgBody);
    assert BodyAngleQuality(avgBody) <= BodyAngleQualityAsWritten(avgBody) by {
      DivMonotone(20.0 - d, 200.0 - d, 20.0);
    }
    FormScoreOfMonotone(BodyAngleQuality(avgBody), BodyAngleQualityAsWritten(avgBody),
                        minKnee, minElbow, avgAlignment);
    FormScoreOf(BodyAngleQuality(avgBody), minKnee, minElbow, avgAlignment)
  }

  /** The discrepancy on one reading: a 170-degree average with straight
      knees, elbows at 100 degrees and level hips scores 100 as written but
      80 corrected, and with a 30 s hold the final scores are 100 and 86. */
  lemma FormScoreDiscrepancy()
    ensures FormScore(170.0, 180.0, 100.0, 0.0) == 100
    ensures FormScoreCorrected(170.0, 180.0, 100.0, 0.0) == 80
    ensures FinalScore(30.0, 100) == 100 && FinalScore(30.0, 80) == 86
  {
    assert BodyAngleQuality(170.0) == 0.5;
  }

  /** The final score: up to 30 points for the hold, reached at 30 s, plus
      70% of the form. A hold under the 10 s needed for a valid test earns
      less than 10 of them. */
  function FinalScore(holdSeconds: real, formScore: int): (f: int)
    requires holdSeconds >= 0.0 && 0 <= formScore <= 100
    ensures 0 <= f <= 100
    ensures Round(formScore as real * 0.7) <= f <= Round(30.0 + formScore as real * 0.7)
    ensures holdSeconds < MIN_VALID_HOLD_SECONDS ==> f <= Round(10.0 + formScore as real * 0.7)
    ensures holdSeconds >= 30.0 ==> f == Round(30.0 + formScore as real * 0.7)
  {
    var holdQ := Min(1.0, holdSeconds / 30.0);
    HoldQualityBounds(holdSeconds);
    var x := holdQ * 100.0 * 0.3 + formScore as real * 0.7;
    RoundWithin(x, 0, 100);
    RoundMonotone(formScore as real * 0.7, x);
    RoundMonotone(x, 30.0 + formScore as real * 0.7);
    if holdSeconds < MIN_VALID_HOLD_SECONDS then
      RoundMonotone(x, 10.0 + formScore as real * 0.7);
      Round(x)
    else Round(x)
  }

  lemma HoldQualityBounds(holdSeconds: real)
    requires holdSeconds >= 0.0
    ensures 0.0 <= Min(1.0, holdSeconds / 30.0) <= 1.0
    ensures holdSeconds < MIN_VALID_HOLD_SECONDS ==> Min(1.0, holdSeconds / 30.0) * 100.0 * 0.3 < 10.0
    ensures holdSeconds >= 30.0 ==> Min(1.0, holdSeconds / 30.0) == 1.0
  {
    if holdSeconds >= 30.0 {
      DivAtLeastOne(holdSeconds, 30.0);
    }
  }

  /** A longer hold never lowers the final score. */
  lemma FinalScoreMonotone(h1: real, h2: real, form: int)
    requires 0.0 <= h1 <= h2 && 0 <= form <= 100
    ensures FinalScore(h1, form) <= FinalScore(h2, form)
  {
    DivMonotone(h1, h2, 30.0);
    var q1, q2 := Min(1.0, h1 / 30.0), Min(1.0, h2 / 30.0);
    RoundMonotone(q1 * 100.0 * 0.3 + form as real * 0.7, q2 * 100.0 * 0.3 + form as real * 0.7);
  }

  /** The object `finishPlankTest()` returns; `isValid` is absent (`None`)
      from the empty result. */
  datatype PlankResult = PlankResult(
    bodyAngle: int,
    kneeAngle: int,
    elbowAngle: int,
    verticalAlignment: real,
    holdTime: real,
    formScore: int,
    finalScore: int,
    isValid: Option<bool>)

  const EmptyResult: PlankResult := PlankResult(0, 0, 0, 0.0, 0.0, 0, 0, None)

  /** The readings besides the body line that the form score uses: the
      lower of the two average knee angles, the lower of the two average
      elbow angles, and the average vertical alignment. */
  function FormInputs(ms: seq<PlankSample>): (real, real, real)
    requires ms != []
  {
    var lk, rk := Mean(ms, (m: PlankSample) => m.leftKnee), Mean(ms, (m: PlankSample) => m.rightKnee);
    var le, re := Mean(ms, (m: PlankSample) => m.leftElbow), Mean(ms, (m: PlankSample) => m.rightElbow);
    (Min(lk, rk), Min(le, re), Mean(ms, (m: PlankSample) => m.verticalAlignment))
  }

  /** `finishPlankTest()`: zeros without a recorded sample; otherwise the
      averages, the best hold in seconds to a tenth, validity from 10 s and
      the two scores, the form score as written. */
  function Finish(s: State): (r: PlankResult)
    requires s.hold.bestHoldMs >= 0.0
    ensures s.history == [] <==> r == EmptyResult
    ensures 0 <= r.formScore <= 100 && 0 <= r.finalScore <= 100
    ensures s.history != [] ==>
      r.isValid == Some(s.hold.bestHoldMs / 1000.0 >= MIN_VALID_HOLD_SECONDS) &&
      r.formScore == FormScore(AverageBodyAngle(s.history), FormInputs(s.history).0,
                               FormInputs(s.history).1, FormInputs(s.history).2) &&
      r.finalScore == FinalScore(s.hold.bestHoldMs / 1000.0, r.formScore)
  {
    var ms := s.history;
    if ms == [] then EmptyResult
    else
      var avgBody := AverageBodyAngle(ms);
      var lk, rk := Mean(ms, (m: PlankSample) => m.leftKnee), Mean(ms, (m: PlankSample) => m.rightKnee);
      var le, re := Mean(ms, (m: PlankSample) => m.leftElbow), Mean(ms, (m: PlankSample) => m.rightElbow);
      var va := Mean(ms, (m: PlankSample) => m.verticalAlignment);
      var holdSeconds := s.hold.bestHoldMs / 1000.0;
      var form := FormScore(avgBody, Min(lk, rk), Min(le, re), va);
      PlankResult(Round(avgBody), Round((lk + rk) / 2.0), Round((le + re) / 2.0), RoundTo(va, 1000.0),
                  RoundTo(holdSeconds, 10.0), form, FinalScore(holdSeconds, form),
                  Some(holdSeconds >= MIN_VALID_HOLD_SECONDS))
  }

  /** On a finished test the body line plays no part in the as-written form
      score: it is the score of a perfect line, whatever the recorded
      angles. */
  lemma BodyLineNeverMovesScore(s: State)
    requires Inv(s) && s.history != []
    ensures var (k, e, a) := FormInputs(s.history);
      Finish(s).formScore == FormScoreOf(1.0, k, e, a)
  {
    BodyAngleQualityAlwaysFull(s.history);
  }

  /** The result with the corrected body-line quality: the same averages,
      hold and validity, a form score and hence a final score never above
      the as-written ones, and equal to them for a straight average line. */
  function FinishCorrected(s: State): (r: PlankResult)
    requires s.hold.bestHoldMs >= 0.0
    ensures s.history == [] <==> r == EmptyResult
    ensures 0 <= r.formScore <= 100 && 0 <= r.finalScore <= 100
    ensures r == Finish(s).(formScore := r.formScore, finalScore := r.finalScore)
    ensures s.history != [] ==> r.finalScore == FinalScore(s.hold.bestHoldMs / 1000.0, r.formScore)
    ensures r.formScore <= Finish(s).formScore && r.finalScore <= Finish(s).finalScore
    ensures s.history != [] && AverageBodyAngle(s.history) == 180.0 ==> r == Finish(s)
  {
    var ms := s.history;
    if ms == [] then EmptyResult
    else
      var (k, e, a) := FormInputs(ms);
      var holdSeconds := s.hold.bestHoldMs / 1000.0;
      var form := FormScoreCorrected(AverageBodyAngle(ms), k, e, a);
      RoundMonotone(Min(1.0, holdSeconds / 30.0) * 100.0 * 0.3 + form as real * 0.7,
                    Min(1.0, holdSeconds / 30.0) * 100.0 * 0.3 + Finish(s).formScore as real * 0.7);
      Finish(s).(formScore := form, finalScore := FinalScore(holdSeconds, form))
  }

  /** `plankFinalScore(result)`: the result's final score, 0 without a
      result. */
  function PlankFinalScore(result: Option<PlankResult>): (score: int)
    ensures result.None? ==> score == 0
    ensures result.Some? ==> score == result.value.finalScore
  {
    if result.Some? then result.value.finalScore else 0
  }

  /** A finished test scores within [0, 100], and 0 when nothing was
      recorded. */
  lemma FinishedScore(s: State)
    requires Inv(s)
    ensures 0 <= PlankFinalScore(Some(Finish(s))) <= 100
    ensures s.history == [] ==> PlankFinalScore(Some(Finish(s))) == 0
  {
  }

  // ------------------------------------------------------------- the state

  /** `plankState`, the debounce and hold fields held in one record. */
  class PlankTest {
    var testStart: Option<real>
    var lastTimestamp: Option<real>
    var metricsHistory: seq<PlankSample>
    var hold: Hold

    function Model(): State
      reads this
    {
      State(testStart, lastTimestamp, metricsHistory, hold)
    }

    constructor ()
      ensures Model() == Initial
    {
      testStart, lastTimestamp, metricsHistory, hold := None, None, [], NoHold;
    }

    /** `startPlankTest()` */
    method StartPlankTest(now: real)
      modifies this
      ensures Model() == Start(now)
    {
      testStart, lastTimestamp, metricsHistory, hold := Some(now), Some(now), [], NoHold;
    }

    /** `resetPlankState()` */
    method ResetPlankState()
      modifies this
      ensures Model() == Initial
    {
      testStart, lastTimestamp, metricsHistory, hold := None, None, [], NoHold;
    }

    /** `updatePlank(lm, ...)`: one camera frame at time `now`. */
    method UpdatePlank(lm: Frame, now: real, inPosition: bool) returns (finished: bool)
      requires Complete(lm)
      modifies this
      ensures (Model(), finished) == Update(old(Model()), lm, now, inPosition)
    {
      finished := false;
      if !Truthy(testStart) || !inPosition {
        return;
      }
      var elapsed := now - testStart.value;
      var delta := if Truthy(lastTimestamp) then now - lastTimestamp.value else 0.0;
      lastTimestamp := Some(now);
      if elapsed > PLANK_TEST_WINDOW {
        finished := true;
        return;
      }
      var (bodyAngle, verticalAlignment) := BodyLine(lm);
      var isPlankPosition := IsPlankPosition(bodyAngle, verticalAlignment);
      if !hold.isInPlank {
        if !isPlankPosition {
          hold := hold.(pendingMs := 0.0);
          return;
        }
        hold := hold.(pendingMs := hold.pendingMs + delta);
        if hold.pendingMs >= PLANK_CONFIRM_MS {
          hold := hold.(isInPlank := true, pendingMs := 0.0, currentHoldMs := 0.0);
        }
        return;
      }
      if !isPlankPosition {
        hold := hold.(pendingMs := hold.pendingMs + delta);
        if hold.pendingMs >= PLANK_LOSS_MS {
          hold := hold.(pendingMs := 0.0, isInPlank := false, currentHoldMs := 0.0);
        }
        return;
      }
      hold := hold.(pendingMs := 0.0, currentHoldMs := hold.currentHoldMs + delta);
      if hold.currentHoldMs > hold.bestHoldMs {
        hold := hold.(bestHoldMs := hold.currentHoldMs);
      }
      metricsHistory := metricsHistory + [SampleOf(lm, elapsed)];
    }
  }
}
