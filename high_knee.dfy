/** The high-knee march test of high-knee-scoring-logic-1meter.js. Each leg
    is "up" by a hysteresis on its normalised lift and its knee bend; a rep
    is the lifting of the other leg than the one counted last, at least
    180 ms after it. Every rep stores a record; the final score mixes the
    number of reps with the form of the recorded lifts, and a rhythm score
    is derived from the spacing of the reps. */
module HighKnee {
  import opened Common
  import opened Geometry

  const HIGH_KNEE_TEST_WINDOW: real := 10000.0
  const UP_NORM: real := 0.06
  const DOWN_NORM: real := 0.03
  const UP_BEND: real := 15.0
  const DOWN_BEND: real := 8.0
  const COUNT_COOLDOWN_MS: real := 180.0
  const TIE_GAP: real := 0.03

  datatype Leg = Left | Right

  /** One leg's reading in a frame: the knee's height over the hip, the same
      over the leg's length (at least 0.001), the knee angle and its bend. */
  datatype LegReading = LegReading(liftHeight: real, liftNorm: real, kneeAngle: real, kneeBend: real)

  function ReadLeg(lm: Frame, hip: nat, knee: nat, ankle: nat): (r: LegReading)
    requires Complete(lm) && hip < 33 && knee < 33 && ankle < 33
    ensures r.kneeBend >= 0.0
  {
    var liftHeight := At(lm, hip).y - At(lm, knee).y;
    var legLength := Max(0.001, Abs(At(lm, ankle).y - At(lm, hip).y));
    var kneeAngle := UngatedAngle(PV(lm, hip), PV(lm, knee), PV(lm, ankle));
    LegReading(liftHeight, liftHeight / legLength, kneeAngle, Max(0.0, 180.0 - kneeAngle))
  }

  /** The per-leg hysteresis: a raised leg stays up on the lower thresholds
      (lift over 0.03 or bend over 8 degrees), a lowered one goes up only on
      the higher ones (lift over 0.06 or bend over 15 degrees). */
  function LegUp(wasUp: bool, liftNorm: real, bend: real): (up: bool)
    ensures liftNorm > UP_NORM || bend > UP_BEND ==> up
    ensures liftNorm <= DOWN_NORM && bend <= DOWN_BEND ==> !up
    ensures !wasUp && up ==> liftNorm > UP_NORM || bend > UP_BEND
    ensures wasUp && !up ==> liftNorm <= DOWN_NORM && bend <= DOWN_BEND
  {
    if wasUp then liftNorm > DOWN_NORM || bend > DOWN_BEND
    else liftNorm > UP_NORM || bend > UP_BEND
  }

  /** The hysteresis never drops a leg that would have been raised: what
      lifts a lowered leg also keeps a raised one up. */
  lemma LegUpHysteresis(liftNorm: real, bend: real)
    ensures LegUp(false, liftNorm, bend) ==> LegUp(true, liftNorm, bend)
    ensures !LegUp(true, liftNorm, bend) ==> !LegUp(false, liftNorm, bend)
  {
  }

  /** The leg lifted in this frame: the only raised one; of two raised legs
      the one higher by more than 0.03 of its length, the previous leg on a
      near tie; none when both are down. */
  function LiftedLeg(leftUp: bool, rightUp: bool, gap: real, last: Option<Leg>): (c: Option<Leg>)
    ensures !leftUp && !rightUp ==> c.None?
    ensures leftUp && !rightUp ==> c == Some(Left)
    ensures rightUp && !leftUp ==> c == Some(Right)
    ensures leftUp && rightUp ==>
      c == (if gap > TIE_GAP then Some(Left) else if gap < -TIE_GAP then Some(Right) else last)
  {
    if leftUp && !rightUp then Some(Left)
    else if rightUp && !leftUp then Some(Right)
    else if leftUp && rightUp then
      if gap > TIE_GAP then Some(Left) else if gap < -TIE_GAP then Some(Right) else last
    else None
  }

  /** One entry of `metricsHistory`, without the captured frame. */
  datatype KneeRep = KneeRep(
    leg: Leg,
    liftHeight: real,
    liftNorm: real,
    liftedKnee: real,
    standingKnee: real,
    torsoDeviation: real,
    timestamp: real)

  /** The leg hysteresis state and the counting memory: `leftUp`, `rightUp`,
      `lastLiftedLeg` and `lastCountAtMs`. */
  datatype Legs = Legs(leftUp: bool, rightUp: bool, lastLiftedLeg: Option<Leg>, lastCountAtMs: real)

  /** `leftKneeMin` and `rightKneeMin`. */
  datatype KneeMinima = KneeMinima(left: real, right: real)

  /** `highKneeMarchState`, without the warning flag no code reads. */
  datatype State = State(
    testStart: Option<real>,
    repCount: nat,
    history: seq<KneeRep>,
    legs: Legs,
    kneeMin: KneeMinima)

  const NoMinima: KneeMinima := KneeMinima(999.0, 999.0)

  /** `resetHighKneeMarchState()` and the module's initial value. */
  const Initial: State := State(None, 0, [], Legs(false, false, None, 0.0), NoMinima)

  /** `startHighKneeMarchTest()` at time `now`. */
  function Start(now: real): State
  {
    State(Some(now), 0, [], Legs(false, false, None, 0.0), NoMinima)
  }

  /** `onRepSpeak(n + " reps")` every fifth rep and `onTestFinish()`. */
  datatype Event = RepsSpoken(n: nat) | WindowExpired

  /** Out of position the test is abandoned: no start, no reps, no history,
      no lifted leg, the knee minima back at 999. The leg hysteresis and the
      last count time are left as they were. */
  function OutOfPosition(s: State): (r: State)
    ensures r.testStart.None? && r.repCount == 0 && r.history == []
    ensures r.legs.lastLiftedLeg.None? && r.kneeMin == NoMinima
    ensures r.legs.leftUp == s.legs.leftUp && r.legs.rightUp == s.legs.rightUp
    ensures r.legs.lastCountAtMs == s.legs.lastCountAtMs
    ensures Inv(r)
  {
    s.(testStart := None, repCount := 0, history := [],
       legs := s.legs.(lastLiftedLeg := None), kneeMin := NoMinima)
  }

  /** The record of a rep of `leg` taken `elapsed` ms into the test. */
  function RepOf(lm: Frame, leg: Leg, l: LegReading, r: LegReading, elapsed: real): (rep: KneeRep)
    requires Complete(lm)
    ensures rep.leg == leg && rep.timestamp == elapsed && rep.torsoDeviation >= 0.0
  {
    var (lifted, standing) := if leg == Left then (l, r) else (r, l);
    var shoulderMid := Midpoint(At(lm, 11), At(lm, 12));
    var hipMid := Midpoint(At(lm, 23), At(lm, 24));
    var ankleMid := Midpoint(At(lm, 27), At(lm, 28));
    var torsoAngle := UngatedAngle(Some(ankleMid), Some(hipMid), Some(shoulderMid));
    KneeRep(leg, lifted.liftHeight, lifted.liftNorm, lifted.kneeAngle, standing.kneeAngle,
            Abs(180.0 - torsoAngle), elapsed)
  }

  /** The leg's knee minimum lowered to a rep's lifted-knee angle when the
      rep is of that leg. */
  function LowerMin(m: KneeMinima, rep: KneeRep): KneeMinima
  {
    if rep.leg == Left then (if rep.liftedKnee < m.left then m.(left := rep.liftedKnee) else m)
    else (if rep.liftedKnee < m.right then m.(right := rep.liftedKnee) else m)
  }

  /** Whether a frame whose lifted leg is `cur`, at time `now`, counts. */
  predicate Counts(s: State, cur: Option<Leg>, now: real)
  {
    cur.Some? && cur != s.legs.lastLiftedLeg && now - s.legs.lastCountAtMs >= COUNT_COOLDOWN_MS
  }

  /** A counted rep: one more rep, its record appended, its leg's knee
      minimum lowered, its leg and time remembered. */
  function Record(s: State, rep: KneeRep, now: real): (r: State)
    ensures r.repCount == s.repCount + 1 && r.history == s.history + [rep]
    ensures r.legs == s.legs.(lastLiftedLeg := Some(rep.leg), lastCountAtMs := now)
    ensures r.testStart == s.testStart
    ensures r.kneeMin.left <= s.kneeMin.left && r.kneeMin.right <= s.kneeMin.right
    ensures (if rep.leg == Left then r.kneeMin.left else r.kneeMin.right) <= rep.liftedKnee
    ensures rep.leg == Left ==> r.kneeMin.right == s.kneeMin.right
    ensures rep.leg == Right ==> r.kneeMin.left == s.kneeMin.left
  {
    s.(repCount := s.repCount + 1, history := s.history + [rep], kneeMin := LowerMin(s.kneeMin, rep),
       legs := s.legs.(lastLiftedLeg := Some(rep.leg), lastCountAtMs := now))
  }

  /** The marching part of `updateHighKneeMarch`. */
  function March(s: State, lm: Frame, now: real, elapsed: real): (r: (State, seq<Event>))
    requires Complete(lm)
    ensures r.0.testStart == s.testStart
    ensures (r.0.repCount == s.repCount && r.0.history == s.history && r.1 == []) ||
      (r.0.repCount == s.repCount + 1 && |r.0.history| == |s.history| + 1 &&
       r.0.history[..|s.history|] == s.history && r.0.history[|s.history|].timestamp == elapsed &&
       r.0.legs.lastLiftedLeg == Some(r.0.history[|s.history|].leg) && r.0.legs.lastCountAtMs == now &&
       r.0.legs.lastLiftedLeg != s.legs.lastLiftedLeg && now - s.legs.lastCountAtMs >= COUNT_COOLDOWN_MS)
    ensures r.1 != [] ==> r.1 == [RepsSpoken(r.0.repCount)] && r.0.repCount % 5 == 0
  {
    var l := ReadLeg(lm, 23, 25, 27);
    var r := ReadLeg(lm, 24, 26, 28);
    var leftUp := LegUp(s.legs.leftUp, l.liftNorm, l.kneeBend);
    var rightUp := LegUp(s.legs.rightUp, r.liftNorm, r.kneeBend);
    var cur := LiftedLeg(leftUp, rightUp, l.liftNorm - r.liftNorm, s.legs.lastLiftedLeg);
    var s1 := s.(legs := s.legs.(leftUp := leftUp, rightUp := rightUp));
    if Counts(s, cur, now) then
      var t := Record(s1, RepOf(lm, cur.value, l, r, elapsed), now);
      (t, if t.repCount % 5 == 0 then [RepsSpoken(t.repCount)] else [])
    else (s1, [])
  }

  /** `updateHighKneeMarch(lm, ..., inCorrectPosition)` for a frame at time
      `now`. */
  function Update(s: State, lm: Frame, now: real, inPosition: bool): (r: (State, seq<Event>))
    requires Complete(lm)
    ensures !Truthy(s.testStart) ==> r == (s, [])
    ensures Truthy(s.testStart) && !inPosition ==> r == (OutOfPosition(s), [])
    ensures WindowExpired in r.1 <==>
      Truthy(s.testStart) && inPosition && now - s.testStart.value > HIGH_KNEE_TEST_WINDOW
    ensures r.0.repCount <= s.repCount + 1
    ensures r.1 == [] || r.1 == [WindowExpired] ||
      (r.1 == [RepsSpoken(r.0.repCount)] && r.0.repCount == s.repCount + 1 && r.0.repCount % 5 == 0)
  {
    if !Truthy(s.testStart) then (s, [])
    else if !inPosition then (OutOfPosition(s), [])
    else if now - s.testStart.value > HIGH_KNEE_TEST_WINDOW then (s, [WindowExpired])
    else March(s, lm, now, now - s.testStart.value)
  }

  // ------------------------------------------------------------ properties

  /** The smallest lifted-knee angle among the reps of `leg`, 999 if none. */
  function MinLifted(h: seq<KneeRep>, leg: Leg): real
  {
    if h == [] then 999.0
    else
      var m := MinLifted(h[..|h| - 1], leg);
      if h[|h| - 1].leg == leg then Min(m, h[|h| - 1].liftedKnee) else m
  }

  /** What the test keeps between frames: one history entry per counted
      rep; consecutive reps alternate legs and lie at least 180 ms apart;
      the last rep is the last lifted leg, counted at the stored time; each
      knee minimum is the minimum over that leg's reps. */
  predicate Inv(s: State)
  {
    |s.history| == s.repCount && Alternating(s.history) && Spaced(s.history) &&
    LastRepRemembered(s) && s.kneeMin == KneeMinima(MinLifted(s.history, Left), MinLifted(s.history, Right))
  }

  predicate Alternating(h: seq<KneeRep>)
  {
    forall i :: 0 < i < |h| ==> h[i].leg != h[i - 1].leg
  }

  predicate Spaced(h: seq<KneeRep>)
  {
    forall i :: 0 < i < |h| ==> h[i].timestamp - h[i - 1].timestamp >= COUNT_COOLDOWN_MS
  }

  predicate LastRepRemembered(s: State)
  {
    var h := s.history;
    h != [] ==> s.testStart.Some? && s.legs.lastLiftedLeg == Some(h[|h| - 1].leg) &&
                s.legs.lastCountAtMs == s.testStart.value + h[|h| - 1].timestamp
  }

  lemma StartInv(now: real)
    ensures Inv(Initial) && Inv(Start(now))
  {
  }

  lemma AppendAlternating(h: seq<KneeRep>, rep: KneeRep)
    requires Alternating(h) && (h != [] ==> rep.leg != h[|h| - 1].leg)
    ensures Alternating(h + [rep])
  {
  }

  lemma AppendSpaced(h: seq<KneeRep>, rep: KneeRep)
    requires Spaced(h) && (h != [] ==> rep.timestamp - h[|h| - 1].timestamp >= COUNT_COOLDOWN_MS)
    ensures Spaced(h + [rep])
  {
  }

  lemma AppendMinima(m: KneeMinima, h: seq<KneeRep>, rep: KneeRep)
    requires m == KneeMinima(MinLifted(h, Left), MinLifted(h, Right))
    ensures LowerMin(m, rep) == KneeMinima(MinLifted(h + [rep], Left), MinLifted(h + [rep], Right))
  {
    assert (h + [rep])[..|h|] == h;
  }

  /** Counting a rep of the other leg, after the cooldown, at its own
      elapsed time, keeps the invariant. */
  lemma RecordKeepsInv(s: State, rep: KneeRep, now: real)
    requires Inv(s) && s.testStart.Some?
    requires rep.timestamp == now - s.testStart.value
    requires Some(rep.leg) != s.legs.lastLiftedLeg
    requires now - s.legs.lastCountAtMs >= COUNT_COOLDOWN_MS
    ensures Inv(Record(s, rep, now))
  {
    var t := Record(s, rep, now);
    var h := s.history + [rep];
    assert t.history == h && t.testStart == s.testStart;
    AppendAlternating(s.history, rep);
    AppendSpaced(s.history, rep);
    AppendMinima(s.kneeMin, s.history, rep);
    assert LastRepRemembered(t) by {
      assert h[|h| - 1] == rep;
    }
  }

  lemma UpdateKeepsInv(s: State, lm: Frame, now: real, inPosition: bool)
    requires Complete(lm) && Inv(s)
    ensures Inv(Update(s, lm, now, inPosition).0)
  {
    if Truthy(s.testStart) && inPosition && now - s.testStart.value <= HIGH_KNEE_TEST_WINDOW {
      var elapsed := now - s.testStart.value;
      var l := ReadLeg(lm, 23, 25, 27);
      var r := ReadLeg(lm, 24, 26, 28);
      var leftUp := LegUp(s.legs.leftUp, l.liftNorm, l.kneeBend);
      var rightUp := LegUp(s.legs.rightUp, r.liftNorm, r.kneeBend);
      var cur := LiftedLeg(leftUp, rightUp, l.liftNorm - r.liftNorm, s.legs.lastLiftedLeg);
      var s1 := s.(legs := s.legs.(leftUp := leftUp, rightUp := rightUp));
      assert Update(s, lm, now, inPosition) == March(s, lm, now, elapsed);
      if Counts(s, cur, now) {
        var rep := RepOf(lm, cur.value, l, r, elapsed);
        assert March(s, lm, now, elapsed).0 == Record(s1, rep, now);
        RecordKeepsInv(s1, rep, now);
      } else {
        assert March(s, lm, now, elapsed).0 == s1;
      }
    }
  }

  /** Out of position a running test is abandoned. */
  lemma OutOfPositionClears(s: State, lm: Frame, now: real)
    requires Complete(lm) && Truthy(s.testStart)
    ensures var r := Update(s, lm, now, false).0;
      r.testStart.None? && r.repCount == 0 && r.history == [] &&
      r.legs.lastLiftedLeg.None? && r.kneeMin == NoMinima
  {
  }

  /** A frame counts at most one rep, exactly when its lifted leg differs
      from the last counted one and the cooldown has passed; the rep's
      record is appended and nothing else is added to the history. */
  lemma CountsOneRep(s: State, lm: Frame, now: real)
    requires Complete(lm) && Truthy(s.testStart)
    requires now - s.testStart.value <= HIGH_KNEE_TEST_WINDOW
    ensures var r := Update(s, lm, now, true).0;
      var l, rt := ReadLeg(lm, 23, 25, 27), ReadLeg(lm, 24, 26, 28);
      var cur := LiftedLeg(LegUp(s.legs.leftUp, l.liftNorm, l.kneeBend),
                           LegUp(s.legs.rightUp, rt.liftNorm, rt.kneeBend),
                           l.liftNorm - rt.liftNorm, s.legs.lastLiftedLeg);
      (Counts(s, cur, now) ==>
        r.repCount == s.repCount + 1 && |r.history| == |s.history| + 1 &&
        r.history[..|s.history|] == s.history && r.history[|s.history|].leg == cur.value) &&
      (!Counts(s, cur, now) ==> r.repCount == s.repCount && r.history == s.history)
  {
  }

  /** Within a running test the knee minima never increase. */
  lemma KneeMinimaNeverIncrease(s: State, lm: Frame, now: real)
    requires Complete(lm) && Truthy(s.testStart)
    ensures var r := Update(s, lm, now, true).0;
      r.kneeMin.left <= s.kneeMin.left && r.kneeMin.right <= s.kneeMin.right
  {
  }

  // ------------------------------------------------------------ the result

  /** The gap between consecutive reps, where it is positive: the
      `intervals` of `finishHighKneeMarchTest`. */
  function Intervals(h: seq<KneeRep>): (iv: seq<real>)
    ensures |iv| <= if h == [] then 0 else |h| - 1
    ensures forall i :: 0 <= i < |iv| ==> iv[i] > 0.0
  {
    if |h| < 2 then []
    else
      var dt := h[|h| - 1].timestamp - h[|h| - 2].timestamp;
      Intervals(h[..|h| - 1]) + (if dt > 0.0 then [dt] else [])
  }

  /** Since reps are 180 ms apart, no gap is dropped: a history of n reps
      yields n - 1 intervals, each at least 180 ms. */
  lemma {:induction false} SpacedIntervals(h: seq<KneeRep>)
    requires forall i :: 0 < i < |h| ==> h[i].timestamp - h[i - 1].timestamp >= COUNT_COOLDOWN_MS
    ensures |Intervals(h)| == if h == [] then 0 else |h| - 1
    ensures forall i :: 0 <= i < |Intervals(h)| ==> Intervals(h)[i] >= COUNT_COOLDOWN_MS
  {
    if |h| >= 2 {
      var p := h[..|h| - 1];
      assert forall i :: 0 <= i < |p| ==> p[i] == h[i];
      SpacedIntervals(p);
    }
  }

  /** The `for` loop of `finishHighKneeMarchTest` that collects the
      positive gaps between consecutive reps. */
  method RhythmIntervals(metrics: seq<KneeRep>) returns (intervals: seq<real>)
    ensures intervals == Intervals(metrics)
  {
    intervals := [];
    if |metrics| < 2 {
      return;
    }
    var i := 1;
    while i < |metrics|
      invariant 1 <= i <= |metrics|
      invariant intervals == Intervals(metrics[..i])
    {
      var dt := metrics[i].timestamp - metrics[i - 1].timestamp;
      if dt > 0.0 {
        intervals := intervals + [dt];
      }
      assert metrics[..i + 1][..i] == metrics[..i];
      i := i + 1;
    }
    assert metrics[..i] == metrics;
  }

  function SqDevSum(xs: seq<real>, mean: real): real
  {
    if xs == [] then 0.0 else SqDevSum(xs[..|xs| - 1], mean) + (xs[|xs| - 1] - mean) * (xs[|xs| - 1] - mean)
  }

  /** The rhythm score: 100 unless there are four gaps or more with a
      positive mean; then 100 for a coefficient of variation up to 0.10,
      falling to 0 at 0.40. */
  function RhythmScore(intervals: seq<real>): (r: int)
    ensures 0 <= r <= 100
    ensures |intervals| < 4 ==> r == 100
  {
    if |intervals| < 4 then 100
    else
      var mean := Sum(intervals) / |intervals| as real;
      if mean > 0.0 then
        var variance := SqDevSum(intervals, mean) / |intervals| as real;
        var std := Sqrt(Max(0.0, variance));
        var cv := std / mean;
        var q := Clamp((0.40 - cv) / (0.40 - 0.10), 0.0, 1.0);
        RoundWithin(q * 100.0, 0, 100);
        Round(q * 100.0)
      else 100
  }

  /** Stand-in for `Math.pow(x, 1.4)` on [0, 1]: within [0, 1], exact at 0
      and 1 and never decreasing, which is all the model uses. */
  function Pow14(x: real): (r: real)
    requires 0.0 <= x <= 1.0
    ensures 0.0 <= r <= 1.0
    ensures x == 0.0 ==> r == 0.0
    ensures x == 1.0 ==> r == 1.0
  {
    SquareUnit(x);
    x * x
  }

  lemma SquareUnit(x: real)
    requires 0.0 <= x <= 1.0
    ensures 0.0 <= x * x <= x
  {
    MulMono(0.0, x, x);
    MulMono(x, 1.0, x);
    assert 0.0 * x == 0.0 && 1.0 * x == x;
  }

  lemma Pow14Monotone(x: real, y: real)
    requires 0.0 <= x <= y <= 1.0
    ensures Pow14(x) <= Pow14(y)
  {
    SquareMonotone(x, y);
  }

  lemma SquareMonotone(x: real, y: real)
    requires 0.0 <= x <= y
    ensures x * x <= y * y
  {
    MulMono(x, y, x);
    MulMono(x, y, y);
  }

  /** The rep score: the fraction of 18 reps reached, through the 1.4 power,
      out of 100; 18 reps or more earn all 100. */
  function RepScore(reps: nat): (r: int)
    ensures 0 <= r <= 100
    ensures reps == 0 ==> r == 0
    ensures reps >= 18 ==> r == 100
  {
    var repQ := Clamp(reps as real / 18.0, 0.0, 1.0);
    FullRepQuality(reps);
    RoundWithin(Pow14(repQ) * 100.0, 0, 100);
    Round(Pow14(repQ) * 100.0)
  }

  lemma FullRepQuality(reps: nat)
    ensures reps >= 18 ==> Clamp(reps as real / 18.0, 0.0, 1.0) == 1.0
  {
    if reps >= 18 {
      DivAtLeastOne(reps as real, 18.0);
    }
  }

  /** More reps never lower the rep score. */
  lemma RepScoreMonotone(fewer: nat, more: nat)
    requires fewer <= more
    ensures RepScore(fewer) <= RepScore(more)
  {
    var q1 := Clamp(fewer as real / 18.0, 0.0, 1.0);
    var q2 := Clamp(more as real / 18.0, 0.0, 1.0);
    DivMonotone(fewer as real, more as real, 18.0);
    Pow14Monotone(q1, q2);
    RoundMonotone(Pow14(q1) * 100.0, Pow14(q2) * 100.0);
  }

  /** The form score, 0 to 100: the mean of the lift, lifted-knee,
      standing-knee and torso qualities. A lift of a quarter of the leg, a
      lifted knee bent to 105 degrees, a straight standing knee and a torso
      within 8 degrees earn all 100; the worst of each earns 0. */
  function FormScore(avgLiftNorm: real, minKneeAngle: real, avgStandingKnee: real, avgTorsoDeviation: real): (f: int)
    ensures 0 <= f <= 100
    ensures (avgLiftNorm >= 0.25 && minKneeAngle <= 105.0 && avgStandingKnee >= 175.0 &&
             avgTorsoDeviation <= 8.0) ==> f == 100
    ensures (avgLiftNorm <= 0.10 && minKneeAngle >= 140.0 && avgStandingKnee <= 160.0 &&
             avgTorsoDeviation >= 25.0) ==> f == 0
  {
    KneeQualityEnds(minKneeAngle);
    TorsoQualityEnds(avgTorsoDeviation);
    var liftQ := Scale01(avgLiftNorm, 0.10, 0.25);
    var liftedKneeQ := Clamp((140.0 - minKneeAngle) / (140.0 - 105.0), 0.0, 1.0);
    var standingKneeQ := Scale01(avgStandingKnee, 160.0, 175.0);
    var torsoQ := Clamp((25.0 - avgTorsoDeviation) / (25.0 - 8.0), 0.0, 1.0);
    var q := Clamp((liftQ + liftedKneeQ + standingKneeQ + torsoQ) / 4.0, 0.0, 1.0);
    RoundWithin(q * 100.0, 0, 100);
    Round(q * 100.0)
  }

  lemma KneeQualityEnds(minKneeAngle: real)
    ensures minKneeAngle <= 105.0 ==> Clamp((140.0 - minKneeAngle) / (140.0 - 105.0), 0.0, 1.0) == 1.0
    ensures minKneeAngle >= 140.0 ==> Clamp((140.0 - minKneeAngle) / (140.0 - 105.0), 0.0, 1.0) == 0.0
  {
    if minKneeAngle <= 105.0 {
      DivAtLeastOne(140.0 - minKneeAngle, 140.0 - 105.0);
    }
    if minKneeAngle >= 140.0 {
      DivNonPos(140.0 - minKneeAngle, 140.0 - 105.0);
    }
  }

  lemma TorsoQualityEnds(avgTorsoDeviation: real)
    ensures avgTorsoDeviation <= 8.0 ==> Clamp((25.0 - avgTorsoDeviation) / (25.0 - 8.0), 0.0, 1.0) == 1.0
    ensures avgTorsoDeviation >= 25.0 ==> Clamp((25.0 - avgTorsoDeviation) / (25.0 - 8.0), 0.0, 1.0) == 0.0
  {
    if avgTorsoDeviation <= 8.0 {
      DivAtLeastOne(25.0 - avgTorsoDeviation, 25.0 - 8.0);
    }
    if avgTorsoDeviation >= 25.0 {
      DivNonPos(25.0 - avgTorsoDeviation, 25.0 - 8.0);
    }
  }

  /** Lifting the knee higher, all else equal, never lowers the form score. */
  lemma FormScoreMonotoneInLift(lower: real, higher: real, minKneeAngle: real, avgStandingKnee: real, avgTorsoDeviation: real)
    requires lower <= higher
    ensures FormScore(lower, minKneeAngle, avgStandingKnee, avgTorsoDeviation) <=
            FormScore(higher, minKneeAngle, avgStandingKnee, avgTorsoDeviation)
  {
    Scale01Monotone(lower, higher, 0.10, 0.25);
    var rest := Clamp((140.0 - minKneeAngle) / (140.0 - 105.0), 0.0, 1.0) +
                Scale01(avgStandingKnee, 160.0, 175.0) +
                Clamp((25.0 - avgTorsoDeviation) / (25.0 - 8.0), 0.0, 1.0);
    var q1 := Clamp((Scale01(lower, 0.10, 0.25) + rest) / 4.0, 0.0, 1.0);
    var q2 := Clamp((Scale01(higher, 0.10, 0.25) + rest) / 4.0, 0.0, 1.0);
    DivMonotone(Scale01(lower, 0.10, 0.25) + rest, Scale01(higher, 0.10, 0.25) + rest, 4.0);
    assert q1 <= q2;
    RoundMonotone(q1 * 100.0, q2 * 100.0);
  }

  /** 70% reps, 30% form. */
  function FinalScore(repScore: int, formScore: int): (f: int)
    requires 0 <= repScore <= 100 && 0 <= formScore <= 100
    ensures 0 <= f <= 100
    ensures repScore == 100 && formScore == 100 ==> f == 100
    ensures f >= Round(repScore as real * 0.7)
  {
    RoundWithin(repScore as real * 0.7 + formScore as real * 0.3, 0, 100);
    RoundMonotone(repScore as real * 0.7, repScore as real * 0.7 + formScore as real * 0.3);
    Round(repScore as real * 0.7 + formScore as real * 0.3)
  }

  /** The object `finishHighKneeMarchTest()` returns. */
  datatype MarchResult = MarchResult(
    repCount: nat,
    avgLiftHeight: real,
    avgLiftNorm: real,
    minKneeAngle: int,
    avgTorsoDeviation: int,
    avgStandingKnee: int,
    formScore: int,
    repScore: int,
    rhythmScore: int,
    finalScore: int)

  function Mean(h: seq<KneeRep>, f: KneeRep -> real): real
    requires h != []
  {
    Sum(seq(|h|, i requires 0 <= i < |h| => f(h[i]))) / |h| as real
  }

  /** `finishHighKneeMarchTest()`: all zeros without a rep; otherwise the
      averages of the recorded reps and the four scores. */
  function Finish(s: State): (r: MarchResult)
    ensures s.history == [] ==> r == MarchResult(0, 0.0, 0.0, 0, 0, 0, 0, 0, 0, 0)
    ensures 0 <= r.formScore <= 100 && 0 <= r.repScore <= 100
    ensures 0 <= r.rhythmScore <= 100 && 0 <= r.finalScore <= 100
    ensures s.history != [] ==> r.repCount == s.repCount && r.repScore == RepScore(s.repCount)
    ensures s.history != [] ==> r.finalScore == FinalScore(r.repScore, r.formScore)
    ensures s.history != [] ==> r.rhythmScore == RhythmScore(Intervals(s.history))
    ensures s.history != [] ==>
      r.formScore == FormScore(Mean(s.history, (m: KneeRep) => m.liftNorm), Min(s.kneeMin.left, s.kneeMin.right),
                               Mean(s.history, (m: KneeRep) => m.standingKnee),
                               Mean(s.history, (m: KneeRep) => m.torsoDeviation))
  {
    var h := s.history;
    if h == [] then MarchResult(0, 0.0, 0.0, 0, 0, 0, 0, 0, 0, 0)
    else
      var avgLiftHeight := Mean(h, (m: KneeRep) => m.liftHeight);
      var avgLiftNorm := Mean(h, (m: KneeRep) => m.liftNorm);
      var minKneeAngle := Min(s.kneeMin.left, s.kneeMin.right);
      var avgTorsoDeviation := Mean(h, (m: KneeRep) => m.torsoDeviation);
      var avgStandingKnee := Mean(h, (m: KneeRep) => m.standingKnee);
      var rhythm := RhythmScore(Intervals(h));
      var rep := RepScore(s.repCount);
      var form := FormScore(avgLiftNorm, minKneeAngle, avgStandingKnee, avgTorsoDeviation);
      MarchResult(s.repCount, RoundTo(avgLiftHeight, 1000.0), RoundTo(avgLiftNorm, 1000.0),
                  Round(minKneeAngle), Round(avgTorsoDeviation), Round(avgStandingKnee),
                  form, rep, rhythm, FinalScore(rep, form))
  }

  /** In a consistent state the rhythm is measured over every gap between
      reps, so five reps or more always get a measured rhythm. */
  lemma RhythmUsesEveryGap(s: State)
    requires Inv(s) && s.history != []
    ensures |Intervals(s.history)| == s.repCount - 1
  {
    SpacedIntervals(s.history);
  }

  /** `highKneeMarchFinalScore(result)`: the result's final score, 0
      without a result. */
  function HighKneeMarchFinalScore(result: Option<MarchResult>): (score: int)
    ensures result.None? ==> score == 0
    ensures result.Some? ==> score == result.value.finalScore
  {
    if result.Some? then result.value.finalScore else 0
  }

  /** A finished test scores within [0, 100], 0 without a rep, and at least
      70 once 18 reps are counted, whatever the form. */
  lemma FinishedScore(s: State)
    ensures 0 <= HighKneeMarchFinalScore(Some(Finish(s))) <= 100
    ensures s.history == [] ==> HighKneeMarchFinalScore(Some(Finish(s))) == 0
    ensures s.history != [] && s.repCount >= 18 ==> HighKneeMarchFinalScore(Some(Finish(s))) >= 70
  {
    if s.history != [] && s.repCount >= 18 {
      assert Round(100.0 * 0.7) == 70;
    }
  }

  // ------------------------------------------------------------- the state

  /** `highKneeMarchState`, the leg hysteresis and the knee minima held as
      record-valued fields. */
  class HighKneeMarch {
    var testStart: Option<real>
    var repCount: nat
    var metricsHistory: seq<KneeRep>
    var legs: Legs
    var kneeMin: KneeMinima

    function Model(): State
      reads this
    {
      State(testStart, repCount, metricsHistory, legs, kneeMin)
    }

    constructor ()
      ensures Model() == Initial
    {
      testStart, repCount, metricsHistory := None, 0, [];
      legs, kneeMin := Legs(false, false, None, 0.0), NoMinima;
    }

    /** `startHighKneeMarchTest()` */
    method StartHighKneeMarchTest(now: real)
      modifies this
      ensures Model() == Start(now)
    {
      testStart, repCount, metricsHistory := Some(now), 0, [];
      legs, kneeMin := Legs(false, false, None, 0.0), NoMinima;
    }

    /** `resetHighKneeMarchState()` */
    method ResetHighKneeMarchState()
      modifies this
      ensures Model() == Initial
    {
      testStart, repCount, metricsHistory := None, 0, [];
      legs, kneeMin := Legs(false, false, None, 0.0), NoMinima;
    }

    /** `updateHighKneeMarch(lm, ...)`: one camera frame at time `now`. */
    method UpdateHighKneeMarch(lm: Frame, now: real, inPosition: bool) returns (events: seq<Event>)
      requires Complete(lm)
      modifies this
      ensures (Model(), events) == Update(old(Model()), lm, now, inPosition)
    {
      events := [];
      if !Truthy(testStart) {
        return;
      }
      if !inPosition {
        testStart := None;
        repCount := 0;
        legs := legs.(lastLiftedLeg := None);
        metricsHistory := [];
        kneeMin := NoMinima;
        return;
      }
      var elapsed := now - testStart.value;
      if elapsed > HIGH_KNEE_TEST_WINDOW {
        events := [WindowExpired];
        return;
      }
      var l := ReadLeg(lm, 23, 25, 27);
      var r := ReadLeg(lm, 24, 26, 28);
      var leftUpNow := LegUp(legs.leftUp, l.liftNorm, l.kneeBend);
      var rightUpNow := LegUp(legs.rightUp, r.liftNorm, r.kneeBend);
      var last := legs.lastLiftedLeg;
      var lastCountAtMs := legs.lastCountAtMs;
      legs := legs.(leftUp := leftUpNow, rightUp := rightUpNow);
      var current := LiftedLeg(leftUpNow, rightUpNow, l.liftNorm - r.liftNorm, last);
      if current.Some? && current != last && now - lastCountAtMs >= COUNT_COOLDOWN_MS {
        var rep := RepOf(lm, current.value, l, r, elapsed);
        repCount := repCount + 1;
        legs := legs.(lastLiftedLeg := current, lastCountAtMs := now);
        kneeMin := LowerMin(kneeMin, rep);
        metricsHistory := metricsHistory + [rep];
        if repCount % 5 == 0 {
          events := [RepsSpoken(repCount)];
        }
      }
    }

    /** `finishHighKneeMarchTest()`, with the rhythm intervals collected by
        the loop. */
    method FinishHighKneeMarchTest() returns (r: MarchResult)
      ensures r == Finish(Model())
    {
      if metricsHistory == [] {
        return MarchResult(0, 0.0, 0.0, 0, 0, 0, 0, 0, 0, 0);
      }
      var intervals := RhythmIntervals(metricsHistory);
      var h := metricsHistory;
      var avgLiftNorm := Mean(h, (m: KneeRep) => m.liftNorm);
      var avgTorsoDeviation := Mean(h, (m: KneeRep) => m.torsoDeviation);
      var avgStandingKnee := Mean(h, (m: KneeRep) => m.standingKnee);
      var minKneeAngle := Min(kneeMin.left, kneeMin.right);
      var rhythm := RhythmScore(intervals);
      var rep := RepScore(repCount);
      var form := FormScore(avgLiftNorm, minKneeAngle, avgStandingKnee, avgTorsoDeviation);
      r := MarchResult(repCount, RoundTo(Mean(h, (m: KneeRep) => m.liftHeight), 1000.0), RoundTo(avgLiftNorm, 1000.0),
                       Round(minKneeAngle), Round(avgTorsoDeviation), Round(avgStandingKnee),
                       form, rep, rhythm, FinalScore(rep, form));
    }
  }
}
