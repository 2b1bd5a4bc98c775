/** The 2 m squat test (squat-scoring-logic-2meter.js). It follows the 1 m
    test step for step, with four differences: the rep's knee minimum is
    the plain running minimum of the frame angles, the heel test uses the
    stricter 2 m profile, entering the DOWN phase resets no tracker, and
    `resetTestState`/`stopTest` leave the heel tracker alone. The form and
    final scores use the 2 m hip threshold 0.06. */
module Squat2m {
  import opened Common
  import opened Geometry
  import opened SquatPose
  import opened SquatTrackers
  import opened SquatForm
  import opened SquatSession

  /** `kneeMin`, `hipMin`, `heelLifted`, `heelSeverityMax`, the `heel2m*`
      tracker, the `staggered*` tracker and `minShoulderAngle`. */
  datatype RepTracking = RepTracking(
    kneeMin: real,
    hipMin: real,
    heelLifted: bool,
    heelSeverityMax: real,
    heel: HeelTracker,
    stagger: StaggerTracker,
    minShoulder: real)

  datatype State = State(
    testStart: Option<real>,
    finishing: bool,
    repState: RepPhase,
    repCount: nat,
    repData: seq<Rep>,
    track: RepTracking)

  /** Every rep tracker at its start value; the heel baseline kept or not. */
  function Cleared(t: RepTracking, keepBaseline: bool): RepTracking
  {
    RepTracking(999.0, 999.0, false, 0.0, HeelReset(t.heel, keepBaseline), StaggerReset, 999.0)
  }

  const Initial: State :=
    State(None, false, RepUp, 0, [],
          RepTracking(999.0, 999.0, false, 0.0, HeelTracker(0, 0.0, EmptyBaseline), StaggerReset, 999.0))

  predicate TrackingInv(t: RepTracking)
  {
    HeelTrackerInv(t.heel) && StaggerInv(t.stagger) && 0.0 <= t.heelSeverityMax <= 1.0
  }

  predicate Inv(s: State)
  {
    |s.repData| <= s.repCount && RepsWellFormed(s.repData) && TrackingInv(s.track)
  }

  /** `finishTest(onFinish)`: ignored while already finishing; otherwise the
      test stops and the final score is reported with the reps. */
  function Finish(s: State): (r: (State, seq<Event>))
    ensures s.finishing ==> r == (s, [])
    ensures !s.finishing ==>
      !Truthy(r.0.testStart) && r.0.repData == s.repData && r.0.repCount == s.repCount &&
      r.1 == [TestFinished(FinalScore(s.repData, HIP_THR_2M), s.repData)]
  {
    if s.finishing then (s, [])
    else (s.(testStart := None), [TestFinished(FinalScore(s.repData, HIP_THR_2M), s.repData)])
  }

  /** `startTest()`: ignored while a test runs; otherwise a fresh test with
      every tracker cleared, the heel baseline included. */
  function Start(s: State, now: real): (r: State)
    ensures Truthy(s.testStart) ==> r == s
    ensures !Truthy(s.testStart) ==>
      r.testStart == Some(now) && r.finishing == s.finishing && r.repCount == 0 && r.repData == [] &&
      r.repState == RepUp && r.track.kneeMin == 999.0 && r.track.hipMin == 999.0 &&
      !r.track.heelLifted && r.track.heel.baseline == EmptyBaseline && Inv(r)
  {
    if Truthy(s.testStart) then s
    else s.(testStart := Some(now), repCount := 0, repData := [], repState := RepUp,
            track := Cleared(s.track, false))
  }

  /** `resetTestState()`: the test, the minima, the stance and the shoulder
      trackers cleared; the heel flag, the heel severity and the heel
      tracker stay as they are. */
  function Reset(s: State): (r: State)
    ensures !Truthy(r.testStart) && !r.finishing && r.repCount == 0 && r.repData == [] && r.repState == RepUp
    ensures r.track.kneeMin == 999.0 && r.track.hipMin == 999.0 && r.track.stagger == StaggerReset &&
      r.track.minShoulder == 999.0
    ensures Inv(s) ==> Inv(r)
  {
    s.(testStart := None, repCount := 0, repData := [], repState := RepUp, finishing := false,
       track := s.track.(kneeMin := 999.0, hipMin := 999.0, stagger := StaggerReset, minShoulder := 999.0))
  }

  /** `stopTest()`: as `resetTestState()`, with the heel flag cleared too. */
  function Stop(s: State): (r: State)
    ensures !Truthy(r.testStart) && !r.finishing && r.repCount == 0 && r.repData == [] && r.repState == RepUp
    ensures r.track.kneeMin == 999.0 && r.track.hipMin == 999.0 && r.track.stagger == StaggerReset &&
      r.track.minShoulder == 999.0 && !r.track.heelLifted
    ensures Inv(s) ==> Inv(r)
  {
    s.(testStart := None, repCount := 0, repData := [], repState := RepUp, finishing := false,
       track := s.track.(kneeMin := 999.0, hipMin := 999.0, heelLifted := false,
                         stagger := StaggerReset, minShoulder := 999.0))
  }

  /** `warmupHeelBaselineBeforeGo(lm)` */
  function Warmup(s: State, lm: Frame): State
  {
    s.(track := s.track.(heel := HeelStep(Heel2m, s.track.heel, lm, Up).0))
  }

  /** The running knee and hip minima of `updateReps`. */
  function TrackMinima(t: RepTracking, lm: Frame, st: SquatReading): RepTracking
  {
    t.(kneeMin := Min(t.kneeMin, st.ang), hipMin := Min(t.hipMin, HipDepth(lm)))
  }

  /** In a squatting frame the heel, stance and shoulder trackers take the
      frame. */
  function TrackSquat(t: RepTracking, lm: Frame, phase: Phase): RepTracking
  {
    if Squatting(phase) then
      var (heel, info) := HeelStep(Heel2m, t.heel, lm, phase);
      t.(heel := heel, heelLifted := t.heelLifted || info.liftConfirmed,
         heelSeverityMax := Max(t.heelSeverityMax, info.severityMax),
         stagger := StaggerStep(t.stagger, lm), minShoulder := ShoulderStep(t.minShoulder, lm))
    else t
  }

  /** One valid frame of `updateReps` before the transition: the knee
      minimum becomes the smaller of itself and the frame's angle, the hip
      minimum falls to at most the frame's depth, a confirmed heel lift is
      never withdrawn, and a frame that is not squatting leaves the heel,
      stance and shoulder trackers alone. */
  function Track(t: RepTracking, lm: Frame, st: SquatReading): (r: RepTracking)
    ensures r.kneeMin <= t.kneeMin && r.kneeMin <= st.ang && (r.kneeMin == t.kneeMin || r.kneeMin == st.ang)
    ensures r.hipMin <= t.hipMin && r.hipMin <= HipDepth(lm)
    ensures (t.heelLifted ==> r.heelLifted) && r.heelSeverityMax >= t.heelSeverityMax
    ensures !Squatting(st.state) ==> r.heel == t.heel && r.stagger == t.stagger && r.minShoulder == t.minShoulder
  {
    TrackSquat(TrackMinima(t, lm, st), lm, st.state)
  }

  /** The record pushed for a completed rep. */
  function RepOf(t: RepTracking, lm: Frame): Rep
    requires TorsoPresent(lm)
  {
    var rep := Rep(t.kneeMin, t.hipMin, Symmetry(lm), t.heelLifted,
                   t.heelSeverityMax, t.stagger.detected, t.stagger.maxSeverity,
                   if t.minShoulder < 999.0 then Some(RoundTo(t.minShoulder, 10.0)) else None, 0.0);
    rep.(form := FormScore(rep, HIP_THR_2M))
  }

  function StoreRep(s: State, lm: Frame): State
    requires TorsoPresent(lm)
  {
    s.(repCount := s.repCount + 1, repData := s.repData + [RepOf(s.track, lm)],
       repState := RepUp, track := Cleared(s.track, true))
  }

  /** Completing a rep on an UP frame in the DOWN phase. As at 1 m the count
      goes up before `symmetry` reads the shoulder and hip landmarks
      unchecked, so a frame lacking one of them only counts. */
  function CompleteRep(s: State, lm: Frame): (r: (State, seq<Event>))
    ensures r.0.repCount == s.repCount + 1 && r.0.finishing == s.finishing
    ensures |r.0.repData| == |s.repData| + (if TorsoPresent(lm) then 1 else 0)
    ensures r.0.repData[..|s.repData|] == s.repData
    ensures r.0.repState == if TorsoPresent(lm) then RepUp else s.repState
    ensures Truthy(r.0.testStart) ==> r.0.testStart == s.testStart
    ensures r.1 != [] ==> r.1[0] == RepCounted(s.repCount + 1)
  {
    var counted := s.repCount + 1;
    if !TorsoPresent(lm) then (s.(repCount := counted), [])
    else
      var s1 := StoreRep(s, lm);
      if counted >= TARGET_REPS then
        var (s2, finished) := Finish(s1);
        (s2, [RepCounted(counted)] + finished)
      else (s1, [RepCounted(counted)])
  }

  /** The rep transition: UP to DOWN on a DOWN frame (no tracker is reset),
      DOWN to a counted rep on an UP frame. */
  function Transition(s: State, lm: Frame, st: SquatReading): (r: (State, seq<Event>))
    ensures r.0.repCount == s.repCount || r.0.repCount == s.repCount + 1
    ensures r.0.repCount == s.repCount + 1 <==> s.repState == RepDown && st.state == Up
    ensures r.0.repState != s.repState ==>
      (s.repState == RepUp && st.state == Down) ||
      (s.repState == RepDown && st.state == Up && TorsoPresent(lm))
    ensures st.state == Mid || st.state == Unknown ==> r == (s, [])
  {
    match s.repState
    case RepUp => if st.state == Down then (s.(repState := RepDown), []) else (s, [])
    case RepDown => if st.state == Up then CompleteRep(s, lm) else (s, [])
  }

  predicate Live(s: State, now: real, inPosition: bool, exercise: string)
  {
    Truthy(s.testStart) && (inPosition || exercise == "high-knee") &&
    now - s.testStart.value <= TEST_WINDOW
  }

  /** `updateReps(lm, onRepSpeak, onTestFinish, inCorrectPosition, exercise)`
      for one frame at time `now`. */
  function Update(s: State, lm: Frame, now: real, inPosition: bool, exercise: string): (r: (State, seq<Event>))
    ensures !Truthy(s.testStart) ==> r == (s, [])
    ensures !inPosition && exercise != "high-knee" ==> r == (s, [])
    ensures r.0.repCount == s.repCount || r.0.repCount == s.repCount + 1
  {
    if !Truthy(s.testStart) then (s, [])
    else if !inPosition && exercise != "high-knee" then (s, [])
    else if now - s.testStart.value > TEST_WINDOW then Finish(s)
    else Advance(s, lm, SquatState2m(lm))
  }

  function Advance(s: State, lm: Frame, st: SquatReading): (State, seq<Event>)
  {
    if !st.valid then (s, [])
    else Transition(s.(track := Track(s.track, lm, st)), lm, st)
  }

  // ------------------------------------------------------------ properties

  /** The valid frames of a run of frames, in order. */
  function ValidReadings(lms: seq<Frame>): (rs: seq<SquatReading>)
    ensures forall i :: 0 <= i < |rs| ==> rs[i].valid
    decreases |lms|
  {
    if lms == [] then []
    else
      var st := SquatState2m(lms[0]);
      (if st.valid then [st] else []) + ValidReadings(lms[1..])
  }

  /** The trackers after a run of frames within one rep (no rep completed). */
  function TrackRun(t: RepTracking, lms: seq<Frame>): RepTracking
    decreases |lms|
  {
    if lms == [] then t
    else
      var st := SquatState2m(lms[0]);
      TrackRun(if st.valid then Track(t, lms[0], st) else t, lms[1..])
  }

  lemma TrackKneeMin(t: RepTracking, lm: Frame, st: SquatReading)
    ensures Track(t, lm, st).kneeMin == Min(t.kneeMin, st.ang)
  {
  }

  /** One frame of a run: the run continues from the tracked state. */
  lemma TrackRunStep(t: RepTracking, lms: seq<Frame>)
    requires lms != []
    ensures var st := SquatState2m(lms[0]);
      TrackRun(t, lms) == TrackRun(if st.valid then Track(t, lms[0], st) else t, lms[1..]) &&
      ValidReadings(lms) == (if st.valid then [st] else []) + ValidReadings(lms[1..])
  {
  }

  /** The knee minimum a rep stores is no larger than the start value or
      than the knee angle of any of the rep's valid frames. */
  lemma {:induction false} TrackRunKneeMinBelow(t: RepTracking, lms: seq<Frame>)
    ensures var r := TrackRun(t, lms); var rs := ValidReadings(lms);
      r.kneeMin <= t.kneeMin && forall i :: 0 <= i < |rs| ==> r.kneeMin <= rs[i].ang
    decreases |lms|
  {
    if lms != [] {
      var st := SquatState2m(lms[0]);
      var t1 := if st.valid then Track(t, lms[0], st) else t;
      TrackRunStep(t, lms);
      TrackRunKneeMinBelow(t1, lms[1..]);
      TrackKneeMin(t, lms[0], st);
      var rs1 := ValidReadings(lms[1..]);
      var rs := ValidReadings(lms);
      var r := TrackRun(t, lms);
      if st.valid {
        forall i | 0 <= i < |rs|
          ensures r.kneeMin <= rs[i].ang
        {
          if i > 0 { assert rs[i] == rs1[i - 1]; } else { assert rs[i] == st; }
        }
      }
    }
  }

  /** ... and it is the start value or one of those knee angles: the
      stored knee minimum is the smallest angle seen during the rep. */
  lemma {:induction false} TrackRunKneeMinAttained(t: RepTracking, lms: seq<Frame>)
    ensures var r := TrackRun(t, lms); var rs := ValidReadings(lms);
      r.kneeMin == t.kneeMin || exists i :: 0 <= i < |rs| && r.kneeMin == rs[i].ang
    decreases |lms|
  {
    if lms != [] {
      var st := SquatState2m(lms[0]);
      var t1 := if st.valid then Track(t, lms[0], st) else t;
      TrackRunStep(t, lms);
      TrackRunKneeMinAttained(t1, lms[1..]);
      TrackKneeMin(t, lms[0], st);
      var rs1 := ValidReadings(lms[1..]);
      var rs := ValidReadings(lms);
      var r := TrackRun(t, lms);
      if r.kneeMin != t.kneeMin && r.kneeMin != t1.kneeMin {
        var j :| 0 <= j < |rs1| && r.kneeMin == rs1[j].ang;
        if st.valid {
          assert r.kneeMin == rs[j + 1].ang;
        } else {
          assert r.kneeMin == rs[j].ang;
        }
      } else if r.kneeMin != t.kneeMin {
        assert st.valid;
        assert r.kneeMin == rs[0].ang;
      }
    }
  }

  lemma CompleteRepFinishes(s: State, lm: Frame)
    requires TorsoPresent(lm) && s.repCount + 1 >= TARGET_REPS && !s.finishing
    ensures var r := CompleteRep(s, lm);
      !Truthy(r.0.testStart) &&
      r.1 == [RepCounted(s.repCount + 1), TestFinished(FinalScore(r.0.repData, HIP_THR_2M), r.0.repData)]
  {
  }

  /** A rep is counted exactly on a live, valid UP frame in the DOWN phase. */
  lemma UpdateCountsReps(s: State, lm: Frame, now: real, inPosition: bool, exercise: string)
    ensures Update(s, lm, now, inPosition, exercise).0.repCount == s.repCount + 1 <==>
      Live(s, now, inPosition, exercise) && SquatState2m(lm).valid &&
      s.repState == RepDown && SquatState2m(lm).state == Up
  {
  }

  lemma TrackKeepsInv(t: RepTracking, lm: Frame, st: SquatReading)
    requires TrackingInv(t)
    ensures TrackingInv(Track(t, lm, st))
  {
    var t1 := TrackMinima(t, lm, st);
    if Squatting(st.state) {
      var (heel, info) := HeelStep(Heel2m, t1.heel, lm, st.state);
      assert HeelTrackerInv(heel) && 0.0 <= info.severityMax <= 1.0;
      assert StaggerInv(StaggerStep(t1.stagger, lm));
    }
  }

  lemma RepOfInUnit(t: RepTracking, lm: Frame)
    requires TrackingInv(t) && TorsoPresent(lm)
    ensures 0.0 <= RepOf(t, lm).form <= 1.0
    ensures 0.0 <= RepOf(t, lm).heelSeverity <= 1.0 && 0.0 <= RepOf(t, lm).staggeredSeverity <= 1.0
  {
    var rep := RepOf(t, lm);
    assert rep.staggeredSeverity == t.stagger.maxSeverity;
    assert rep.form == FormScore(rep.(form := 0.0), HIP_THR_2M);
  }

  lemma CompleteRepKeepsInv(s: State, lm: Frame)
    requires Inv(s)
    ensures Inv(CompleteRep(s, lm).0)
  {
    if TorsoPresent(lm) {
      RepOfInUnit(s.track, lm);
      var s1 := StoreRep(s, lm);
      assert s1.repData == s.repData + [RepOf(s.track, lm)];
      assert RepsWellFormed(s1.repData);
      assert Inv(s1);
    }
  }

  /** Every frame keeps the state invariant. */
  lemma UpdateKeepsInv(s: State, lm: Frame, now: real, inPosition: bool, exercise: string)
    requires Inv(s)
    ensures Inv(Update(s, lm, now, inPosition, exercise).0)
  {
    var st := SquatState2m(lm);
    if Live(s, now, inPosition, exercise) && st.valid {
      var s1 := s.(track := Track(s.track, lm, st));
      TrackKeepsInv(s.track, lm, st);
      assert Inv(s1);
      if s1.repState == RepDown && st.state == Up {
        CompleteRepKeepsInv(s1, lm);
      }
    }
  }

  predicate Session(s: State)
  {
    !s.finishing && s.repCount <= TARGET_REPS && (Truthy(s.testStart) ==> s.repCount < TARGET_REPS)
  }

  /** The fifth rep ends the test: it is reported and the final score sent. */
  lemma FifthRepFinishes(s: State, lm: Frame, now: real, inPosition: bool, exercise: string)
    requires Session(s) && TorsoPresent(lm)
    requires Update(s, lm, now, inPosition, exercise).0.repCount == TARGET_REPS > s.repCount
    ensures var r := Update(s, lm, now, inPosition, exercise);
      !Truthy(r.0.testStart) &&
      r.1 == [RepCounted(TARGET_REPS), TestFinished(FinalScore(r.0.repData, HIP_THR_2M), r.0.repData)]
  {
    UpdateCountsReps(s, lm, now, inPosition, exercise);
    var st := SquatState2m(lm);
    CompleteRepFinishes(s.(track := Track(s.track, lm, st)), lm);
  }

  /** Every operation keeps the session invariant (frames carrying the torso
      landmarks), so no test ever counts more than five reps. */
  lemma SessionPreserved(s: State, lm: Frame, now: real, inPosition: bool, exercise: string)
    requires Session(s) && TorsoPresent(lm)
    ensures Session(Update(s, lm, now, inPosition, exercise).0)
    ensures Session(Start(s, now)) && Session(Reset(s)) && Session(Stop(s)) && Session(Finish(s).0)
    ensures Session(Warmup(s, lm))
  {
    UpdateCountsReps(s, lm, now, inPosition, exercise);
  }

  /** Unlike the 1 m test, a reset or stop keeps the heel tracker, its
      baseline and the heel severity; only a stop clears the heel flag. */
  lemma ResetKeepsHeelTracking(s: State)
    ensures Reset(s).track.heel == s.track.heel && Stop(s).track.heel == s.track.heel
    ensures Reset(s).track.heelSeverityMax == s.track.heelSeverityMax
    ensures Stop(s).track.heelSeverityMax == s.track.heelSeverityMax
    ensures Reset(s).track.heelLifted == s.track.heelLifted && !Stop(s).track.heelLifted
    ensures Stop(s) == Reset(s).(track := Reset(s).track.(heelLifted := false))
  {
  }

  /** After a reset or a stop no test runs, so a frame changes nothing and
      reports nothing until the next start. */
  lemma UpdateIdleWhenStopped(s: State, lm: Frame, now: real, inPosition: bool, exercise: string)
    ensures Update(Reset(s), lm, now, inPosition, exercise) == (Reset(s), [])
    ensures Update(Stop(s), lm, now, inPosition, exercise) == (Stop(s), [])
  {
  }

  lemma WindowExpiryFinishes(s: State, lm: Frame, now: real, inPosition: bool, exercise: string)
    requires Truthy(s.testStart) && (inPosition || exercise == "high-knee") && !s.finishing
    requires now - s.testStart.value > TEST_WINDOW
    ensures var r := Update(s, lm, now, inPosition, exercise);
      r.0 == s.(testStart := None) &&
      r.1 == [TestFinished(FinalScore(s.repData, HIP_THR_2M), s.repData)]
  {
  }

  // ------------------------------------------------------------- evaluator

  /** The rep-counting state of the 2 m evaluator, the per-rep trackers held
      together in the record-valued field `track`. */
  class Evaluator {
    var testStart: Option<real>
    var finishing: bool
    var repState: RepPhase
    var repCount: nat
    var repData: seq<Rep>
    var track: RepTracking

    function Model(): State
      reads this
    {
      State(testStart, finishing, repState, repCount, repData, track)
    }

    constructor ()
      ensures Model() == Initial
    {
      testStart, finishing := None, false;
      repState, repCount, repData := RepUp, 0, [];
      track := RepTracking(999.0, 999.0, false, 0.0, HeelTracker(0, 0.0, EmptyBaseline), StaggerReset, 999.0);
    }

    /** `startTest()` */
    method StartTest(now: real)
      modifies this
      ensures Model() == Start(old(Model()), now)
    {
      if Truthy(testStart) {
        return;
      }
      testStart := Some(now);
      repCount := 0;
      repData := [];
      repState := RepUp;
      track := Cleared(track, false);
    }

    /** `finishTest()` */
    method FinishTest() returns (events: seq<Event>)
      modifies this
      ensures (Model(), events) == Finish(old(Model()))
    {
      events := [];
      if finishing {
        return;
      }
      finishing := true;
      testStart := None;
      events := [TestFinished(FinalScore(repData, HIP_THR_2M), repData)];
      finishing := false;
    }

    /** `warmupHeelBaselineBeforeGo(lm)` */
    method WarmupHeelBaselineBeforeGo(lm: Frame)
      modifies this
      ensures Model() == Warmup(old(Model()), lm)
    {
      track := track.(heel := HeelStep(Heel2m, track.heel, lm, Up).0);
    }

    /** The frame-tracking part of `updateReps`. */
    method TrackFrame(lm: Frame, st: SquatReading)
      modifies this
      ensures Model() == old(Model()).(track := Track(old(track), lm, st))
    {
      var depth := HipDepth(lm);
      if st.ang < track.kneeMin {
        track := track.(kneeMin := st.ang);
      }
      if depth < track.hipMin {
        track := track.(hipMin := depth);
      }
      if Squatting(st.state) {
        var (heel, info) := HeelStep(Heel2m, track.heel, lm, st.state);
        track := track.(heel := heel);
        if info.liftConfirmed {
          track := track.(heelLifted := true);
        }
        track := track.(heelSeverityMax := Max(track.heelSeverityMax, info.severityMax));
        track := track.(stagger := StaggerStep(track.stagger, lm));
        track := track.(minShoulder := ShoulderStep(track.minShoulder, lm));
      }
    }

    /** The UP transition after DOWN. */
    method CountRep(lm: Frame) returns (events: seq<Event>)
      modifies this
      ensures (Model(), events) == CompleteRep(old(Model()), lm)
    {
      events := [];
      repCount := repCount + 1;
      if !TorsoPresent(lm) {
        return;
      }
      var rep := RepOf(track, lm);
      repData := repData + [rep];
      events := [RepCounted(repCount)];
      repState := RepUp;
      track := Cleared(track, true);
      if repCount >= TARGET_REPS {
        var finished := FinishTest();
        events := events + finished;
      }
    }

    /** `updateReps(lm, ...)`: one camera frame. */
    method UpdateReps(lm: Frame, now: real, inPosition: bool, exercise: string) returns (events: seq<Event>)
      modifies this
      ensures (Model(), events) == Update(old(Model()), lm, now, inPosition, exercise)
    {
      events := [];
      if !Truthy(testStart) {
        return;
      }
      if !inPosition && exercise != "high-knee" {
        return;
      }
      if now - testStart.value > TEST_WINDOW {
        events := FinishTest();
        return;
      }
      var st := SquatState2m(lm);
      if !st.valid {
        return;
      }
      TrackFrame(lm, st);
      if repState == RepUp {
        if st.state == Down {
          repState := RepDown;
        }
      } else if st.state == Up {
        events := CountRep(lm);
      }
    }

    /** `resetTestState()` */
    method ResetTestState()
      modifies this
      ensures Model() == Reset(old(Model()))
    {
      testStart := None;
      repCount := 0;
      repData := [];
      repState := RepUp;
      track := track.(kneeMin := 999.0, hipMin := 999.0);
      finishing := false;
      track := track.(stagger := StaggerReset, minShoulder := 999.0);
    }

    /** `stopTest()` */
    method StopTest()
      modifies this
      ensures Model() == Stop(old(Model()))
    {
      testStart := None;
      repCount := 0;
      repData := [];
      repState := RepUp;
      track := track.(kneeMin := 999.0, hipMin := 999.0, heelLifted := false);
      finishing := false;
      track := track.(stagger := StaggerReset, minShoulder := 999.0);
    }

    /** `setFinishing(v)` */
    method SetFinishing(v: bool)
      modifies this
      ensures Model() == old(Model()).(finishing := v)
    {
      finishing := v;
    }
  }
}
