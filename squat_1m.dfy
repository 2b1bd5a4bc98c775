/** The 1 m squat test (squat-scoring-logic-1meter.js): a 12-second window in
    which up to five reps are counted on DOWN-then-UP transitions of the
    knee angle, each rep scored on knee depth, hip depth, torso symmetry,
    heel lift and stance, and the test finished after the fifth rep or when
    the window runs out.

    The module-level variables of the source are the fields of `Evaluator`;
    each exported function is a method proved equal to a step function on
    the `State` value. */
module Squat1m {
  import opened Common
  import opened Geometry
  import opened SquatPose
  import opened SquatStats
  import opened SquatTrackers
  import opened SquatForm
  import opened SquatSession

  /** The variables that follow the rep in progress: `kneeMin`, `hipMin`,
      `heelLifted`, `heelSeverityMax`, `kneeAngles1m`, the heel tracker, the
      stagger tracker and `minShoulderAngle`. */
  datatype RepTracking = RepTracking(
    kneeMin: real,
    hipMin: real,
    heelLifted: bool,
    heelSeverityMax: real,
    kneeAngles: seq<real>,
    heel: HeelTracker,
    stagger: StaggerTracker,
    minShoulder: real)

  datatype State = State(
    testStart: Option<real>,
    finishing: bool,
    repState: RepPhase,
    repCount: nat,
    repData: seq<Rep>,
    track: RepTracking)

  /** Every rep tracker at its start value; the heel baseline kept or not. */
  function Cleared(t: RepTracking, keepBaseline: bool): RepTracking
  {
    RepTracking(999.0, 999.0, false, 0.0, [], HeelReset(t.heel, keepBaseline), StaggerReset, 999.0)
  }

  /** The state the module starts in. */
  const Initial: State :=
    State(None, false, RepUp, 0, [],
          RepTracking(999.0, 999.0, false, 0.0, [], HeelTracker(0, 0.0, EmptyBaseline), StaggerReset, 999.0))

  predicate TrackingInv(t: RepTracking)
  {
    HeelTrackerInv(t.heel) && StaggerInv(t.stagger) && 0.0 <= t.heelSeverityMax <= 1.0
  }

  /** What every step keeps: no more stored reps than counted ones, every
      stored score and severity in [0, 1]. */
  predicate Inv(s: State)
  {
    |s.repData| <= s.repCount && RepsWellFormed(s.repData) && TrackingInv(s.track)
  }

  /** `finishTest(onFinish)`: ignored while already finishing; otherwise the
      test stops and the final score is reported with the reps. */
  function Finish(s: State): (r: (State, seq<Event>))
    ensures s.finishing ==> r == (s, [])
    ensures !s.finishing ==>
      !Truthy(r.0.testStart) && r.0.repData == s.repData && r.0.repCount == s.repCount &&
      r.1 == [TestFinished(FinalScore(s.repData, HIP_THR_1M), s.repData)]
  {
    if s.finishing then (s, [])
    else (s.(testStart := None), [TestFinished(FinalScore(s.repData, HIP_THR_1M), s.repData)])
  }

  /** `startTest()`: ignored while a test runs; otherwise a fresh test with
      no reps, the heel baseline cleared. */
  function Start(s: State, now: real): (r: State)
    ensures Truthy(s.testStart) ==> r == s
    ensures !Truthy(s.testStart) ==>
      r.testStart == Some(now) && r.finishing == s.finishing && r.repCount == 0 && r.repData == [] &&
      r.repState == RepUp && r.track.kneeAngles == [] && r.track.kneeMin == 999.0 &&
      r.track.hipMin == 999.0 && !r.track.heelLifted && r.track.heel.baseline == EmptyBaseline && Inv(r)
  {
    if Truthy(s.testStart) then s
    else s.(testStart := Some(now), repCount := 0, repData := [], repState := RepUp,
            track := Cleared(s.track, false))
  }

  /** `resetTestState()`: the test and the rep trackers cleared, except the
      heel flag and the heel severity of the rep in progress. */
  function Reset(s: State): (r: State)
    ensures !Truthy(r.testStart) && !r.finishing && r.repCount == 0 && r.repData == [] && r.repState == RepUp
    ensures r.track.kneeAngles == [] && r.track.kneeMin == 999.0 && r.track.hipMin == 999.0 &&
      r.track.heel.baseline == EmptyBaseline
    ensures r.track.heelLifted == s.track.heelLifted && r.track.heelSeverityMax == s.track.heelSeverityMax
    ensures Inv(s) ==> Inv(r)
  {
    s.(testStart := None, repCount := 0, repData := [], repState := RepUp, finishing := false,
       track := Cleared(s.track, false).(heelLifted := s.track.heelLifted,
                                          heelSeverityMax := s.track.heelSeverityMax))
  }

  /** `stopTest()`: as `resetTestState()`, with the heel flag cleared too. */
  function Stop(s: State): (r: State)
    ensures !Truthy(r.testStart) && !r.finishing && r.repCount == 0 && r.repData == [] && r.repState == RepUp
    ensures r.track.kneeAngles == [] && r.track.kneeMin == 999.0 && r.track.hipMin == 999.0 &&
      r.track.heel.baseline == EmptyBaseline && !r.track.heelLifted
    ensures Inv(s) ==> Inv(r)
  {
    s.(testStart := None, repCount := 0, repData := [], repState := RepUp, finishing := false,
       track := Cleared(s.track, false).(heelSeverityMax := s.track.heelSeverityMax))
  }

  /** `warmupHeelBaselineBeforeGo(lm)`: a standing heel frame that only
      refreshes the heel baseline. */
  function Warmup(s: State, lm: Frame): State
  {
    s.(track := s.track.(heel := HeelStep(Heel1m, s.track.heel, lm, Up).0))
  }

  /** The first part of `updateReps` for a valid frame: a squatting
      frame's knee angle is sampled, and the running knee and hip minima
      are updated. */
  function TrackMinima(t: RepTracking, lm: Frame, st: SquatReading): RepTracking
  {
    var angles := if ValidAngle(st.ang) && Squatting(st.state) then t.kneeAngles + [st.ang] else t.kneeAngles;
    t.(kneeAngles := angles, kneeMin := Min(t.kneeMin, RobustKneeMin(angles)),
       hipMin := Min(t.hipMin, HipDepth(lm)))
  }

  /** The second part: in a squatting frame the heel, stance and shoulder
      trackers take the frame. */
  function TrackSquat(t: RepTracking, lm: Frame, phase: Phase): RepTracking
  {
    if Squatting(phase) then
      var (heel, info) := HeelStep(Heel1m, t.heel, lm, phase);
      t.(heel := heel, heelLifted := t.heelLifted || info.liftConfirmed,
         heelSeverityMax := Max(t.heelSeverityMax, info.severityMax),
         stagger := StaggerStep(t.stagger, lm), minShoulder := ShoulderStep(t.minShoulder, lm))
    else t
  }

  /** One valid frame of `updateReps` before the transition: the running
      minima only fall, the hip minimum to at most the frame's depth, a
      confirmed heel lift is never withdrawn, and a frame that is not
      squatting leaves the heel, stance and shoulder trackers alone. */
  function Track(t: RepTracking, lm: Frame, st: SquatReading): (r: RepTracking)
    ensures r.kneeMin <= t.kneeMin && r.hipMin <= t.hipMin && r.hipMin <= HipDepth(lm)
    ensures (t.heelLifted ==> r.heelLifted) && r.heelSeverityMax >= t.heelSeverityMax
    ensures !Squatting(st.state) ==> r.heel == t.heel && r.stagger == t.stagger && r.minShoulder == t.minShoulder
  {
    TrackSquat(TrackMinima(t, lm, st), lm, st.state)
  }

  /** The record pushed for a completed rep. */
  function RepOf(t: RepTracking, lm: Frame): Rep
    requires TorsoPresent(lm)
  {
    var rep := Rep(RobustKneeMin(t.kneeAngles), t.hipMin, Symmetry(lm), t.heelLifted,
                   t.heelSeverityMax, t.stagger.detected, t.stagger.maxSeverity,
                   if t.minShoulder < 999.0 then Some(RoundTo(t.minShoulder, 10.0)) else None, 0.0);
    rep.(form := FormScore(rep, HIP_THR_1M))
  }

  /** The counted rep stored, every rep tracker cleared (the heel baseline
      kept) and the phase back to UP. */
  function StoreRep(s: State, lm: Frame): State
    requires TorsoPresent(lm)
  {
    s.(repCount := s.repCount + 1, repData := s.repData + [RepOf(s.track, lm)],
       repState := RepUp, track := Cleared(s.track, true))
  }

  /** Completing a rep on an UP frame while in the DOWN phase. The count goes
      up first; when the frame lacks a shoulder or hip landmark `symmetry`
      throws there, and the rest of the step never happens. */
  function CompleteRep(s: State, lm: Frame): (r: (State, seq<Event>))
    ensures r.0.repCount == s.repCount + 1 && r.0.finishing == s.finishing
    ensures |r.0.repData| == |s.repData| + (if TorsoPresent(lm) then 1 else 0)
    ensures r.0.repData[..|s.repData|] == s.repData
    ensures r.0.repState == if TorsoPresent(lm) then RepUp else s.repState
    ensures Truthy(r.0.testStart) ==> r.0.testStart == s.testStart
    ensures r.1 != [] ==> r.1[0] == RepCounted(s.repCount + 1)
  {
    var counted := s.repCount + 1;
    if !TorsoPresent(lm) then (s.(repCount := counted), [])
    else
      var s1 := StoreRep(s, lm);
      if counted >= TARGET_REPS then
        var (s2, finished) := Finish(s1);
        (s2, [RepCounted(counted)] + finished)
      else (s1, [RepCounted(counted)])
  }

  /** Entering the DOWN phase starts the rep's knee samples and heel counter
      afresh (the heel baseline and the heel flag stay). */
  function EnterDown(s: State): State
  {
    s.(repState := RepDown,
       track := s.track.(heel := HeelReset(s.track.heel, true), kneeAngles := [], heelSeverityMax := 0.0))
  }

  /** The rep transition of `updateReps`: UP to DOWN on a DOWN frame, DOWN to
      a counted rep on an UP frame, nothing otherwise. */
  function Transition(s: State, lm: Frame, st: SquatReading): (r: (State, seq<Event>))
    ensures r.0.repCount == s.repCount || r.0.repCount == s.repCount + 1
    ensures r.0.repCount == s.repCount + 1 <==> s.repState == RepDown && st.state == Up
    ensures r.0.repState != s.repState ==>
      (s.repState == RepUp && st.state == Down) ||
      (s.repState == RepDown && st.state == Up && TorsoPresent(lm))
    ensures st.state == Mid || st.state == Unknown ==> r == (s, [])
  {
    match s.repState
    case RepUp => if st.state == Down then (EnterDown(s), []) else (s, [])
    case RepDown => if st.state == Up then CompleteRep(s, lm) else (s, [])
  }

  /** The frame reaches the rep logic: a test runs, the user is in position
      (or the exercise is the high-knee one), the window is open. */
  predicate Live(s: State, now: real, inPosition: bool, exercise: string)
  {
    Truthy(s.testStart) && (inPosition || exercise == "high-knee") &&
    now - s.testStart.value <= TEST_WINDOW
  }

  /** `updateReps(lm, onRepSpeak, onTestFinish, inCorrectPosition, exercise)`
      for one frame at time `now`. */
  function Update(s: State, lm: Frame, now: real, inPosition: bool, exercise: string): (r: (State, seq<Event>))
    ensures !Truthy(s.testStart) ==> r == (s, [])
    ensures !inPosition && exercise != "high-knee" ==> r == (s, [])
    ensures r.0.repCount == s.repCount || r.0.repCount == s.repCount + 1
  {
    if !Truthy(s.testStart) then (s, [])
    else if !inPosition && exercise != "high-knee" then (s, [])
    else if now - s.testStart.value > TEST_WINDOW then Finish(s)
    else Advance(s, lm, SquatState1m(lm))
  }

  /** The rest of `updateReps` once the frame's squat reading `st` is known. */
  function Advance(s: State, lm: Frame, st: SquatReading): (State, seq<Event>)
  {
    if !st.valid then (s, [])
    else Transition(s.(track := Track(s.track, lm, st)), lm, st)
  }

  // ------------------------------------------------------------ properties

  /** The rep that reaches the target finishes the test: the count and the
      final score are reported, in that order. */
  lemma CompleteRepFinishes(s: State, lm: Frame)
    requires TorsoPresent(lm) && s.repCount + 1 >= TARGET_REPS && !s.finishing
    ensures var r := CompleteRep(s, lm);
      !Truthy(r.0.testStart) &&
      r.1 == [RepCounted(s.repCount + 1), TestFinished(FinalScore(r.0.repData, HIP_THR_1M), r.0.repData)]
  {
  }

  /** A rep is counted exactly on a live, valid UP frame in the DOWN phase. */
  lemma UpdateCountsReps(s: State, lm: Frame, now: real, inPosition: bool, exercise: string)
    ensures Update(s, lm, now, inPosition, exercise).0.repCount == s.repCount + 1 <==>
      Live(s, now, inPosition, exercise) && SquatState1m(lm).valid &&
      s.repState == RepDown && SquatState1m(lm).state == Up
  {
  }

  /** The rep phase changes only on a live DOWN frame (UP to DOWN) or a live
      UP frame with the torso in view (DOWN to UP); a MID frame never
      changes it. */
  lemma UpdatePhaseChanges(s: State, lm: Frame, now: real, inPosition: bool, exercise: string)
    ensures var r := Update(s, lm, now, inPosition, exercise);
      r.0.repState != s.repState ==>
        Live(s, now, inPosition, exercise) && SquatState1m(lm).valid &&
        ((s.repState == RepUp && SquatState1m(lm).state == Down) ||
         (s.repState == RepDown && SquatState1m(lm).state == Up && TorsoPresent(lm)))
    ensures SquatState1m(lm).state == Mid ==> Update(s, lm, now, inPosition, exercise).0.repState == s.repState
  {
  }

  lemma TrackKeepsInv(t: RepTracking, lm: Frame, st: SquatReading)
    requires TrackingInv(t)
    ensures TrackingInv(Track(t, lm, st))
  {
    var t1 := TrackMinima(t, lm, st);
    if Squatting(st.state) {
      var (heel, info) := HeelStep(Heel1m, t1.heel, lm, st.state);
      assert HeelTrackerInv(heel) && 0.0 <= info.severityMax <= 1.0;
      assert StaggerInv(StaggerStep(t1.stagger, lm));
    }
  }

  /** A stored rep's form score and severities lie in [0, 1]. */
  lemma RepOfInUnit(t: RepTracking, lm: Frame)
    requires TrackingInv(t) && TorsoPresent(lm)
    ensures 0.0 <= RepOf(t, lm).form <= 1.0
    ensures 0.0 <= RepOf(t, lm).heelSeverity <= 1.0 && 0.0 <= RepOf(t, lm).staggeredSeverity <= 1.0
  {
    var rep := RepOf(t, lm);
    assert rep.staggeredSeverity == t.stagger.maxSeverity;
    assert rep.form == FormScore(rep.(form := 0.0), HIP_THR_1M);
  }

  lemma CompleteRepKeepsInv(s: State, lm: Frame)
    requires Inv(s)
    ensures Inv(CompleteRep(s, lm).0)
  {
    if TorsoPresent(lm) {
      RepOfInUnit(s.track, lm);
      var s1 := StoreRep(s, lm);
      assert s1.repData == s.repData + [RepOf(s.track, lm)];
      assert RepsWellFormed(s1.repData);
      assert Inv(s1);
    }
  }

  /** Every frame keeps the state invariant. */
  lemma UpdateKeepsInv(s: State, lm: Frame, now: real, inPosition: bool, exercise: string)
    requires Inv(s)
    ensures Inv(Update(s, lm, now, inPosition, exercise).0)
  {
    var st := SquatState1m(lm);
    if Live(s, now, inPosition, exercise) && st.valid {
      var s1 := s.(track := Track(s.track, lm, st));
      TrackKeepsInv(s.track, lm, st);
      assert Inv(s1);
      if s1.repState == RepDown && st.state == Up {
        CompleteRepKeepsInv(s1, lm);
      }
    }
  }

  /** With the torso landmarks present every counted rep is stored. */
  lemma UpdateStoresEveryRep(s: State, lm: Frame, now: real, inPosition: bool, exercise: string)
    requires |s.repData| == s.repCount && TorsoPresent(lm)
    ensures var r := Update(s, lm, now, inPosition, exercise);
      |r.0.repData| == r.0.repCount
  {
  }

  /** Once the window has run out the next frame that gets past the position
      check ends the test, reporting the final score of the reps so far. */
  lemma WindowExpiryFinishes(s: State, lm: Frame, now: real, inPosition: bool, exercise: string)
    requires Truthy(s.testStart) && (inPosition || exercise == "high-knee") && !s.finishing
    requires now - s.testStart.value > TEST_WINDOW
    ensures var r := Update(s, lm, now, inPosition, exercise);
      r.0 == s.(testStart := None) &&
      r.1 == [TestFinished(FinalScore(s.repData, HIP_THR_1M), s.repData)]
  {
  }

  /** The session invariant: no finish in progress, at most five reps, and
      fewer than five while a test runs. */
  predicate Session(s: State)
  {
    !s.finishing && s.repCount <= TARGET_REPS && (Truthy(s.testStart) ==> s.repCount < TARGET_REPS)
  }

  /** The fifth rep ends the test: it is reported and the final score sent. */
  lemma FifthRepFinishes(s: State, lm: Frame, now: real, inPosition: bool, exercise: string)
    requires Session(s) && TorsoPresent(lm)
    requires Update(s, lm, now, inPosition, exercise).0.repCount == TARGET_REPS > s.repCount
    ensures var r := Update(s, lm, now, inPosition, exercise);
      !Truthy(r.0.testStart) &&
      r.1 == [RepCounted(TARGET_REPS), TestFinished(FinalScore(r.0.repData, HIP_THR_1M), r.0.repData)]
  {
    UpdateCountsReps(s, lm, now, inPosition, exercise);
    var st := SquatState1m(lm);
    CompleteRepFinishes(s.(track := Track(s.track, lm, st)), lm);
  }

  /** Every operation keeps the session invariant (frames carrying the torso
      landmarks), so no test ever counts more than five reps. */
  lemma SessionPreserved(s: State, lm: Frame, now: real, inPosition: bool, exercise: string)
    requires Session(s) && TorsoPresent(lm)
    ensures Session(Update(s, lm, now, inPosition, exercise).0)
    ensures Session(Start(s, now)) && Session(Reset(s)) && Session(Stop(s)) && Session(Finish(s).0)
    ensures Session(Warmup(s, lm))
  {
    UpdateCountsReps(s, lm, now, inPosition, exercise);
  }

  /** After a reset or a stop no test runs, so a frame changes nothing and
      reports nothing until the next start. */
  lemma UpdateIdleWhenStopped(s: State, lm: Frame, now: real, inPosition: bool, exercise: string)
    ensures Update(Reset(s), lm, now, inPosition, exercise) == (Reset(s), [])
    ensures Update(Stop(s), lm, now, inPosition, exercise) == (Stop(s), [])
  {
  }

  /** `stopTest()` differs from `resetTestState()` only in clearing the heel
      flag. */
  lemma StopIsResetClearingHeelFlag(s: State)
    ensures Stop(s) == Reset(s).(track := Reset(s).track.(heelLifted := false))
  {
  }

  // ------------------------------------------------------------- evaluator

  /** The rep-counting state of the 1 m evaluator. The per-rep trackers
      (`kneeMin`, `hipMin`, `heelLifted`, `heelSeverityMax`, `kneeAngles1m`,
      the `heel1m*` and `staggered*` fields and `minShoulderAngle`) are held
      together in the record-valued field `track`. */
  class Evaluator {
    var testStart: Option<real>
    var finishing: bool
    var repState: RepPhase
    var repCount: nat
    var repData: seq<Rep>
    var track: RepTracking

    function Model(): State
      reads this
    {
      State(testStart, finishing, repState, repCount, repData, track)
    }

    constructor ()
      ensures Model() == Initial
    {
      testStart, finishing := None, false;
      repState, repCount, repData := RepUp, 0, [];
      track := RepTracking(999.0, 999.0, false, 0.0, [], HeelTracker(0, 0.0, EmptyBaseline), StaggerReset, 999.0);
    }

    /** `startTest()` */
    method StartTest(now: real)
      modifies this
      ensures Model() == Start(old(Model()), now)
    {
      if Truthy(testStart) {
        return;
      }
      testStart := Some(now);
      repCount := 0;
      repData := [];
      repState := RepUp;
      track := Cleared(track, false);
    }

    /** `finishTest()` */
    method FinishTest() returns (events: seq<Event>)
      modifies this
      ensures (Model(), events) == Finish(old(Model()))
    {
      events := [];
      if finishing {
        return;
      }
      finishing := true;
      testStart := None;
      events := [TestFinished(FinalScore(repData, HIP_THR_1M), repData)];
      finishing := false;
    }

    /** `warmupHeelBaselineBeforeGo(lm)` */
    method WarmupHeelBaselineBeforeGo(lm: Frame)
      modifies this
      ensures Model() == Warmup(old(Model()), lm)
    {
      track := track.(heel := HeelStep(Heel1m, track.heel, lm, Up).0);
    }

    /** The knee-angle buffer and the depth minima of `updateReps`. */
    method TrackMinimaFrame(lm: Frame, st: SquatReading)
      modifies this
      ensures Model() == old(Model()).(track := TrackMinima(old(track), lm, st))
    {
      var depth := HipDepth(lm);
      if ValidAngle(st.ang) && Squatting(st.state) {
        track := track.(kneeAngles := track.kneeAngles + [st.ang]);
      }
      var kMin := RobustKneeMin(track.kneeAngles);
      if kMin < track.kneeMin {
        track := track.(kneeMin := kMin);
      }
      if depth < track.hipMin {
        track := track.(hipMin := depth);
      }
    }

    /** The heel, stagger and shoulder tracking of `updateReps`. */
    method TrackSquatFrame(lm: Frame, phase: Phase)
      modifies this
      ensures Model() == old(Model()).(track := TrackSquat(old(track), lm, phase))
    {
      if Squatting(phase) {
        var (heel, info) := HeelStep(Heel1m, track.heel, lm, phase);
        track := track.(heel := heel);
        if info.liftConfirmed {
          track := track.(heelLifted := true);
        }
        track := track.(heelSeverityMax := Max(track.heelSeverityMax, info.severityMax));
        track := track.(stagger := StaggerStep(track.stagger, lm));
        track := track.(minShoulder := ShoulderStep(track.minShoulder, lm));
      }
    }

    /** The UP transition after DOWN: the rep is counted, stored and the
        per-rep trackers cleared; the fifth rep finishes the test. */
    method CountRep(lm: Frame) returns (events: seq<Event>)
      modifies this
      ensures (Model(), events) == CompleteRep(old(Model()), lm)
    {
      events := [];
      repCount := repCount + 1;
      if !TorsoPresent(lm) {
        return;
      }
      var rep := RepOf(track, lm);
      repData := repData + [rep];
      events := [RepCounted(repCount)];
      repState := RepUp;
      track := Cleared(track, true);
      if repCount >= TARGET_REPS {
        var finished := FinishTest();
        events := events + finished;
      }
    }

    /** The rep transition of `updateReps`. */
    method AdvanceRep(lm: Frame, st: SquatReading) returns (events: seq<Event>)
      modifies this
      ensures (Model(), events) == Transition(old(Model()), lm, st)
    {
      events := [];
      if repState == RepUp {
        if st.state == Down {
          repState := RepDown;
          track := track.(heel := HeelReset(track.heel, true), kneeAngles := [], heelSeverityMax := 0.0);
        }
      } else if st.state == Up {
        events := CountRep(lm);
      }
    }

    /** `updateReps(lm, ...)`: one camera frame. */
    method UpdateReps(lm: Frame, now: real, inPosition: bool, exercise: string) returns (events: seq<Event>)
      modifies this
      ensures (Model(), events) == Update(old(Model()), lm, now, inPosition, exercise)
    {
      events := [];
      if !Truthy(testStart) {
        return;
      }
      if !inPosition && exercise != "high-knee" {
        return;
      }
      if now - testStart.value > TEST_WINDOW {
        events := FinishTest();
        return;
      }
      var st := SquatState1m(lm);
      if !st.valid {
        return;
      }
      TrackMinimaFrame(lm, st);
      TrackSquatFrame(lm, st.state);
      events := AdvanceRep(lm, st);
    }

    /** `resetTestState()` */
    method ResetTestState()
      modifies this
      ensures Model() == Reset(old(Model()))
    {
      testStart := None;
      repCount := 0;
      repData := [];
      repState := RepUp;
      finishing := false;
      track := Cleared(track, false).(heelLifted := track.heelLifted, heelSeverityMax := track.heelSeverityMax);
    }

    /** `stopTest()` */
    method StopTest()
      modifies this
      ensures Model() == Stop(old(Model()))
    {
      ResetTestState();
      track := track.(heelLifted := false);
    }

    /** `setFinishing(v)` */
    method SetFinishing(v: bool)
      modifies this
      ensures Model() == old(Model()).(finishing := v)
    {
      finishing := v;
    }
  }
}
