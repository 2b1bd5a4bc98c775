/** What the two squat evaluators (squat-scoring-logic-1meter.js and
    squat-scoring-logic-2meter.js) share: the rep phase, the callbacks they
    make, the 12-second test window and the well-formedness of stored reps. */
module SquatSession {
  import opened SquatPose
  import opened SquatForm

  /** `repState`: "UP" or "DOWN". */
  datatype RepPhase = RepUp | RepDown

  /** The callbacks the evaluators invoke: `onRepSpeak("Rep " + n)` and
      `onFinish(finalScore(), repData)`. */
  datatype Event = RepCounted(n: nat) | TestFinished(score: real, reps: seq<Rep>)

  const TEST_WINDOW: real := 12000.0

  /** A DOWN or MID frame, in which the heel, stance and shoulder trackers run. */
  predicate Squatting(p: Phase)
  {
    p == Down || p == Mid
  }

  /** Every stored rep's form score and severities lie in [0, 1]. */
  predicate RepsWellFormed(reps: seq<Rep>)
  {
    forall i :: 0 <= i < |reps| ==>
      0.0 <= reps[i].form <= 1.0 && 0.0 <= reps[i].heelSeverity <= 1.0 &&
      0.0 <= reps[i].staggeredSeverity <= 1.0
  }
}
