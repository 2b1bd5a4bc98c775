# Exercise evaluation engine, modelled in Dafny

This project models the exercise evaluation engine of a browser-based
exercise-form evaluator. Each exercise has a state machine that consumes a
stream of body-landmark frames from a pose detector (33 joints with image
positions and a visibility confidence). The state machines count reps or time
holds, record per-rep or per-hold snapshots, and reduce them to 0-100 scores.
The model covers:

- the joint-angle helper with its `0` (missing or barely seen joint) and `999`
  (zero-length limb) sentinels, landmark smoothing and the overlay-readiness
  counters of `poseDetection.js` (module `Geometry`, `PoseDetection`);
- the squat pose classifiers of both camera distances: UP/MID/DOWN with the
  150/160 degree band, hip depth, symmetry, heel lift (`SquatPose`);
- the squat rep counters of both distances: percentile-filtered knee minimum,
  consecutive-frame heel-lift confirmation with a baseline, staggered-stance
  detection, shoulder tracking, progressive form score and the final score
  (`SquatStats`, `SquatTrackers`, `SquatForm`, `SquatSession`, `Squat1m`,
  `Squat2m`);
- the back-facing orientation tracker (`Orientation`);
- the single-leg-stance ("T-pose") balance test with its stance debounce and
  best-hold buffer (`TPose`);
- the forward bend with its hold, grace period and best attempt
  (`ForwardBend`, `ForwardBendPose`);
- the high-knee march with per-leg hysteresis, tie-break and rep cooldown,
  and its rhythm, rep and form scores (`HighKnee`);
- the plank with its confirm/loss debounce and best hold (`Plank`).

Each evaluator follows the same shape. A value `State` and a pure `Update`
function state what one frame does. A class with the source's state fields
has methods whose `ensures` tie the new state and the reported events to that
function: `(Model(), events) == Update(old(Model()), ...)`. Lemmas about the
function state what the source promises. These are the invariants every frame
keeps, the debounce and confirmation rules, monotone best holds and minima,
and the score ranges and caps. Callbacks (`onRepSpeak`, `onTestFinish`) become
returned events or flags. The clock `performance.now()` becomes a `now`
parameter, and the frame delta is derived from it exactly as the source does.
Rounding (`Math.round`, rounding to tenths, hundredths and thousandths) and
JavaScript truthiness (`x ? ... : 0`, `|| 0`) are modelled exactly.

Where several source files share an algorithm with different thresholds, one
member covers both and its row cites the 1 m file: heel-lift tracking uses
profile `Heel1m` (0.18/0.20, 3 frames) or `Heel2m` (0.25/0.28, 5 frames), and
squat form uses a hip threshold of 0.09 or 0.06.

## Model

| member | source | states |
|---|---|---|
| Common.Clamp | forward-bend-scoring-logic-1meter.js:32-34 | `clamp(v, lo, hi)` lies in [lo, hi], is `v` inside the band and the nearer bound outside it |
| Common.Scale01 | forward-bend-scoring-logic-1meter.js:36-39 | `scale01` lies in [0, 1]: 0 at or below `lo`, 1 at or above `hi`, and 0 for an empty band |
| Common.Scale01Monotone | squat-scoring-logic-1meter.js:178-181 | `lerp01` / `scale01` never decrease as the value grows |
| Common.Lerp | poseDetection.js:65-67 | `lerp(a, b, t)` with `t` in [0, 1] lies between `a` and `b` |
| Common.Round | squat-scoring-logic-1meter.js:564 | `Math.round` returns the integer within half a unit of its argument, halves going up |
| Common.RoundTo | squat-scoring-logic-1meter.js:508 | `Math.round(x * 10) / 10` lies within half a tenth of `x` |
| Geometry.Get | poseDetection.js:90 | `lm[i]` is absent past the end of the frame, as the source's `!A` test on an undefined entry |
| Geometry.Angle | squat-pose-detection-1meter.js:13-31 | 0 when a point is missing or has visibility (default 1) below 0.30; otherwise 999 exactly when a limb segment has zero length, else an angle in [0, 180] |
| Geometry.AcosDegrees | squat-pose-detection-1meter.js:28-30 | `acos` in degrees is only applied to a cosine clamped to [-1, 1] and yields [0, 180], 0 at 1 and 180 at -1 |
| Geometry.AngleAt | squat-pose-detection-1meter.js:20-30 | the clamped angle between two non-degenerate rays lies in [0, 180] |
| Geometry.RawAngle | plank-scoring-logic-1meter.js:15-21 | 999 exactly for a zero-length segment, an angle in [0, 180] otherwise |
| Geometry.UngatedAngle | plank-scoring-logic-1meter.js:13-22 | the un-gated `angle` of the t-pose, high-knee and plank files: 0 for a missing point, 999 iff a segment has zero length, else [0, 180] |
| Geometry.BendAngle | forward-bend-scoring-logic-1meter.js:161-170 | `angleBetweenPoints` always lies in [0, 180] and is 0 (not 999) for a zero-length segment |
| Geometry.Sqrt | squat-pose-detection-1meter.js:24-26 | stand-in for `Math.sqrt`: non-negative and zero exactly at zero, which is all the 999 test needs |
| SquatPose.Classify | squat-pose-detection-1meter.js:68-70 | total and disjoint: DOWN iff the angle is below 150, UP iff above 160, MID iff in [150, 160], never UNKNOWN |
| SquatPose.ValidAngleFacts | squat-pose-detection-1meter.js:39-40 | a usable side angle (strictly between 0 and 999) comes from three gated points and lies in (0, 180] |
| SquatPose.Confidence | squat-pose-detection-1meter.js:46-51 | the least visibility of hip, knee and ankle; at least 0.30 for gated points |
| SquatPose.Reading | squat-pose-detection-1meter.js:68-70 | a valid reading carries the angle and its classification |
| SquatPose.SquatState1m | squat-pose-detection-1meter.js:35-71 | invalid (UNKNOWN, 0) exactly when neither side is usable; with both usable the angle lies between the two sides' angles and is the more confident side's when confidences differ by 0.10 or more; with one usable it is that side's; the state is the classification of the angle |
| SquatPose.SquatState2m | squat-pose-detection-2meter.js:34-53 | invalid exactly when neither side is usable; otherwise one of the usable angles and no larger than any usable one, classified |
| SquatPose.SeqMin | squat-pose-detection-2meter.js:48 | `Math.min(...candidates)` is an element of the list and no larger than any element |
| SquatPose.HipDepth | squat-pose-detection-1meter.js:74-83 | 1 when a hip or ankle is missing, otherwise mean ankle y minus mean hip y |
| SquatPose.HipDepthShift | squat-pose-detection-2meter.js:55-64 | raising both hips by d increases the depth by exactly d |
| SquatPose.YSymmetry | squat-pose-detection-1meter.js:87-89 | the mean shoulder and hip height difference is non-negative |
| SquatPose.TorsoPresent | squat-pose-detection-1meter.js:85-90 | every complete frame has both shoulders and both hips for `symmetry` to read |
| SquatPose.TorsoHeight | squat-pose-detection-1meter.js:99-101 | the torso height is non-negative |
| SquatPose.LeanRatio | squat-pose-detection-1meter.js:94-104 | non-negative, and 0 for a torso of height 0.05 or less |
| SquatPose.Symmetry | squat-pose-detection-1meter.js:85-108 | the larger of the height asymmetry and half the lean ratio: at least both, equal to one of them, non-negative, and the height asymmetry alone for a torso of at most 0.05 |
| SquatPose.HeelLiftStub | squat-pose-detection-1meter.js:110-114 | the 1 m `heelLift` never reports a lift |
| SquatPose.HeelLift2m | squat-pose-detection-2meter.js:91-111 | false when an ankle or toe is missing; otherwise true exactly when a side is seen well (0.5 left, 0.65 right, visibility default 0) and its toe lies below its ankle by more than 0.055 (left) or 0.045 (right) |
| PoseDetection.BlendWeight | poseDetection.js:74-75 | the blend factor is in [0, 1], 0 exactly below visibility 0.4, 0.7 from 0.6 |
| PoseDetection.SmoothPoint | poseDetection.js:72-83 | each coordinate and the visibility of the smoothed point lie between the previous and the new value; a point seen below 0.4 keeps its previous position |
| PoseDetection.Smooth | poseDetection.js:69-85 | without a previous frame a copy of the detection; otherwise a frame of the same length whose every coordinate lies between the previous and the new value |
| PoseDetection.SmoothFreezesHiddenLandmarks | poseDetection.js:74-81 | a landmark detected with visibility below 0.4 does not move |
| PoseDetection.SmoothFixedPoint | poseDetection.js:65-67 | smoothing a frame against itself leaves every position unchanged |
| PoseDetection.HasVisibleLowerBody | poseDetection.js:212-246 | true only with all six hip, knee and ankle points present, both ankles seen above 0.4, ankles more than 0.04 below the hips on average and both ankles inside (0.01, 0.99) |
| PoseDetection.ReadinessStep | poseDetection.js:184-210 | a null frame clears everything; a visible lower body shows the overlay and clears the miss count; a miss clears the stable count and never shows a hidden overlay; the counter invariant is kept |
| PoseDetection.MissesWithinToleranceKeepReady | poseDetection.js:198-205 | while at most 45 consecutive misses have been seen a shown overlay stays shown and the miss counter counts them |
| PoseDetection.MissBeyondToleranceClearsReady | poseDetection.js:202-205 | the miss that takes the count to 46 hides the overlay and clears both counters |
| PoseDetection.ReadinessRunKeepsInv | poseDetection.js:184-210 | over any run of frames the miss counter stays 0 while hidden and never exceeds 45 |
| PoseDetection.OverlayReadiness.constructor | poseDetection.js:184-190 | the counters start at 0 with the overlay hidden |
| PoseDetection.OverlayReadiness.Update | poseDetection.js:184-210 | `updateOverlayReadiness` updates the three module counters exactly as `ReadinessStep` |
| Orientation.Vis | squat-orientation-tracker.js:13-16 | a missing landmark reads as visibility 1 |
| Orientation.TorsoHeight | squat-orientation-tracker.js:32-34 | the distance between shoulder and hip midpoints is non-negative |
| Orientation.SidewaysLike | squat-orientation-tracker.js:40-45 | side-on exactly when the shoulder width is below 0.55 times the torso height |
| Orientation.MeasureBackFacingLike | squat-orientation-tracker.js:22-101 | invalid exactly when a shoulder or hip is missing or the torso is under 0.08 high, and an invalid measurement is never a suspect |
| Orientation.BackSuspectIsHard | squat-orientation-tracker.js:80-86 | every back-facing suspect is a hard suspect, and a hard suspect needs a valid side-on frame with the right shoulder more than 0.02 right of the left |
| Orientation.EstimateRightShoulderShown | squat-orientation-tracker.js:103-174 | missing body gives (false, false, missing-body); the result is valid exactly when the torso is seen and at least 0.08 high |
| Orientation.RightShoulderShownNeedsFrontView | squat-orientation-tracker.js:121-163 | an accepted frame is valid and side-on, has the right shoulder clearly left of the left one, a visible face and a readable head; a missing face always rejects; flipped shoulders on a side-on frame give the shoulders-flipped rejection |
| Orientation.ScoreStep | squat-orientation-tracker.js:194-208 | from a non-negative score only a valid suspect raises it; a valid suspect never lowers a score within [0, maxScore] and below the maximum raises it by at least one, up to the maximum |
| Orientation.ScoreStepBounds | squat-orientation-tracker.js:190-212 | one update keeps the back score in [0, maxScore] |
| Orientation.ScoreStepCases | squat-orientation-tracker.js:194-208 | a hard suspect sets the maximum, a soft one adds 1 up to the maximum, anything else takes 1 off down to 0 |
| Orientation.ScoreRunBounds | squat-orientation-tracker.js:190-212 | the back score stays in [0, maxScore] over any run of updates |
| Orientation.ScoreRunDecays | squat-orientation-tracker.js:194-208 | over n frames without a suspect the score falls to max(0, score - n) |
| Orientation.OrientationTracker.constructor | squat-orientation-tracker.js:176-183 | each option falls back to its default (3 and 6) when not given; the score starts at 0 with no measurement |
| Orientation.OrientationTracker.Reset | squat-orientation-tracker.js:185-188 | `reset()` zeroes the score and forgets the last measurement |
| Orientation.OrientationTracker.Update | squat-orientation-tracker.js:190-212 | `update(lm)` applies the score step, stores the measurement and returns ok / backConfirmed as the gate reads after the step |
| Orientation.OrientationTracker.IsOk | squat-orientation-tracker.js:214-215 | `isOk()` is the negation of `isBackConfirmed()`: the score is below the confirm count |
| SquatStats.Insert | squat-scoring-logic-1meter.js:30 | inserting into a sorted list gives a sorted permutation of the list plus the value, one longer |
| SquatStats.SortAscending | squat-scoring-logic-1meter.js:30 | the numeric sort of `values.slice()` is sorted, of the same length and a permutation of its input |
| SquatStats.PercentileIndex | squat-scoring-logic-1meter.js:31 | the clamped quantile index is a valid index, 0 for p <= 0 and the last for p >= 1 |
| SquatStats.Percentile | squat-scoring-logic-1meter.js:28-33 | 999 for no values; otherwise one of the values, the one at the clamped quantile index of the sorted copy |
| SquatStats.PercentileExtremes | squat-scoring-logic-1meter.js:28-33 | the 0-quantile is at most every value and the 1-quantile at least every value |
| SquatStats.FoldMin | squat-scoring-logic-1meter.js:38 | the `reduce` with `Math.min` is at most the start value and every element, and is one of them |
| SquatStats.RobustKneeMin | squat-scoring-logic-1meter.js:35-41 | under 7 samples the plain minimum (999 when empty); from 7 samples on one of the samples |
| SquatStats.RobustKneeMinAboveLowerBound | squat-scoring-logic-1meter.js:35-41 | a lower bound of every sample and of 999 bounds the robust minimum |
| SquatStats.RobustKneeMinOfSevenIsMinimum | squat-scoring-logic-1meter.js:37-40 | with exactly 7 samples the 15th percentile is still the minimum |
| SquatStats.RobustKneeMinIgnoresSingleLowSpike | squat-scoring-logic-1meter.js:36-40 | from 8 samples on, a single sample below all the others is never reported |
| SquatTrackers.CounterStep | squat-scoring-logic-1meter.js:158-162 | a lift frame adds one to the counter; any other frame takes one off, never below 0 |
| SquatTrackers.CounterRunBound | squat-scoring-logic-1meter.js:158-162 | over any run of frames the counter never exceeds its start plus the number of lift frames |
| SquatTrackers.CounterRunAllHits | squat-scoring-logic-1meter.js:158-162 | a run of lift frames only raises the counter by exactly their number |
| SquatTrackers.Ema | squat-scoring-logic-1meter.js:74-77 | the first sample is taken as is; later the average lies between the previous average and the sample, and alpha 0 keeps the previous value |
| SquatTrackers.UpdateToeGroundBaseline | squat-scoring-logic-1meter.js:79-83 | the toe baseline is at least the new toe height, starts at it, and otherwise is either the new toe height or the old baseline drifted up by 0.0005 |
| SquatTrackers.HeelSide | squat-scoring-logic-1meter.js:96-136 | a reading exists only for a foot with all four points, ankle, heel and toe seen at 0.45 and the knee at 0.35, and a shin of at least 0.05; severity is in [0, 1]; a lift has the toe below the heel and a positive severity; standing frames set both baselines, other frames leave them |
| SquatTrackers.FrameLift | squat-scoring-logic-1meter.js:152-156 | the frame lifts iff either usable foot lifts; its severity is in [0, 1] and positive for a lift |
| SquatTrackers.HeelReset | squat-scoring-logic-1meter.js:53-64 | `resetHeel1mTracking(keepBaseline)` clears the counter and the severity and keeps the baseline only when asked |
| SquatTrackers.HeelStep | squat-scoring-logic-1meter.js:89-165 | a standing frame clears counter, severity and result; its baseline becomes the left and right foot baselines `HeelSide` computes from that frame; a phase other than DOWN/MID clears them and keeps the baseline; a squatting frame moves the counter by `CounterStep`, confirms iff it reaches the profile's 3 (1 m) or 5 (2 m) frames and never lowers the maximum severity, kept in [0, 1] |
| SquatTrackers.HeelConfirmNeedsLiftFrames | squat-scoring-logic-1meter.js:158-164 | a confirmed lift needs at least the profile's number of lift frames since the last reset |
| SquatTrackers.StaggerTorso | squat-scoring-logic-1meter.js:209-215 | the normalising torso height is never below 0.1 (0.3 when too small) |
| SquatTrackers.DetectStaggeredStance | squat-scoring-logic-1meter.js:185-249 | no stagger for a short frame or a missing hip, knee or ankle; a stagger needs the ankles more than 0.025 apart horizontally; severity is 0 without a stagger and in [0.5, 1] with one |
| SquatTrackers.StaggerStep | squat-scoring-logic-1meter.js:262-275 | the frame counter moves by `CounterStep`; detection is never withdrawn and is first set at a count of at least 3; the maximum severity only grows, and only on a staggered frame |
| SquatTrackers.StaggerRunDetection | squat-scoring-logic-1meter.js:262-275 | over a run, detection stays once set and is only reached with the start count plus the staggered frames at least 3 |
| SquatTrackers.StaggerConfirmNeedsThreeFrames | squat-scoring-logic-1meter.js:256-275 | after a reset, a detected stagger needs at least three staggered frames |
| SquatTrackers.AngleBetween | squat-scoring-logic-1meter.js:292-299 | none when either vector is shorter than 0.001; otherwise an angle in [0, 180] |
| SquatTrackers.ArmAngle | squat-scoring-logic-1meter.js:304-317 | an arm angle needs shoulder, elbow and hip all seen above 0.4 and lies in [0, 180] |
| SquatTrackers.ShoulderAngle | squat-scoring-logic-1meter.js:279-321 | none for a frame shorter than 17 or with no usable side; otherwise the mean of the usable sides, in [0, 180] |
| SquatTrackers.ShoulderStep | squat-scoring-logic-1meter.js:330-336 | the tracked minimum never rises, becomes the frame's angle only when one is measured, and is at most every measured angle |
| SquatForm.KneeQuality | squat-scoring-logic-1meter.js:357 | the knee quality lies in [0, 1]; it is 0 exactly from 130 degrees up and 1 exactly from 45 degrees down |
| SquatForm.KneeQualityMonotone | squat-scoring-logic-1meter.js:351-357 | a deeper knee angle never scores lower: deeper is better |
| SquatForm.HipQuality | squat-scoring-logic-1meter.js:362 | 1 exactly when the hip depth is within the threshold (0.09 at 1 m, 0.06 at 2 m), 0 exactly above it |
| SquatForm.SymQuality | squat-scoring-logic-1meter.js:367 | the symmetry quality lies in [0, 1]: 1 for no asymmetry, 0 from 0.25 up |
| SquatForm.HeelQuality | squat-scoring-logic-1meter.js:369-370 | the heel quality lies in [0, 1]: 1 for no lift, 0 for full severity |
| SquatForm.QualityMean | squat-scoring-logic-1meter.js:372 | the clamped mean of the four qualities lies in [0, 1]; it is 1 for a deep, symmetric rep without heel lift, and only a rep with knee at most 45 and hip within the threshold reaches 1 |
| SquatForm.FormScore | squat-scoring-logic-1meter.js:338-390 | at most 1 (and non-negative for a stagger severity up to 1); a rep too shallow in both knee (100 or more) and hip keeps a quarter of the mean; a staggered rep is capped at 0.30 - 0.10 x severity; otherwise the mean of the qualities |
| SquatForm.ShallowCount | squat-scoring-logic-1meter.js:546-550 | the number of shallow reps is at most the number of reps |
| SquatForm.FinalScore | squat-scoring-logic-1meter.js:543-565 | 0 with no reps; otherwise within half a hundredth of 30 x reps/5 less 15 x shallow/5 plus 70 x (sum of forms)/5 |
| SquatForm.FinalScoreBounds | squat-scoring-logic-1meter.js:543-565 | with form scores in [0, 1] the score lies in [0, 20 per rep] and is at most 100 for at most five reps |
| SquatForm.FinalScorePerfect | squat-scoring-logic-1meter.js:543-565 | five perfect, non-shallow reps score exactly 100 |
| SquatForm.ShallowCountNone | squat-scoring-logic-1meter.js:546-550 | no shallow rep gives a shallow count of 0 |
| Squat1m.Start | squat-scoring-logic-1meter.js:392-411 | a running test is left untouched; otherwise the test starts at `now` with no reps, phase UP, an empty knee buffer, minima at 999, no heel lift, an empty heel baseline, and the invariant holds |
| Squat1m.Track | squat-scoring-logic-1meter.js:433-456 | a frame only lowers the knee and hip minima (the hip to at most the frame's depth), never withdraws a heel lift or lowers the heel severity; a frame that is not DOWN or MID leaves the heel, stance and shoulder trackers alone |
| Squat1m.CompleteRep | squat-scoring-logic-1meter.js:494-538 | completing a rep adds exactly one to the count, keeps the stored reps and stores one more exactly when the torso is present, returns to UP exactly then, keeps the start time while the test runs, and reports the new count first |
| Squat1m.Transition | squat-scoring-logic-1meter.js:458-540 | the count moves by at most one, and by one exactly on an UP frame in the DOWN phase; the phase changes only UP to DOWN on a DOWN frame or DOWN to UP with the torso present; a MID or UNKNOWN frame changes nothing |
| Squat1m.Update | squat-scoring-logic-1meter.js:413-541 | with no test running, or out of position for an exercise other than high-knee, a frame changes nothing and reports nothing; otherwise the count moves by at most one |
| Squat1m.CompleteRepFinishes | squat-scoring-logic-1meter.js:517-538 | the rep that reaches five ends the test and reports the rep, then the final score of the stored reps |
| Squat1m.UpdateCountsReps | squat-scoring-logic-1meter.js:413-541 | a frame adds one rep exactly on a live, valid UP frame in the DOWN phase |
| Squat1m.UpdatePhaseChanges | squat-scoring-logic-1meter.js:458-540 | the phase changes only UP to DOWN on a DOWN frame or DOWN to UP on an UP frame with the torso present; a MID frame never changes it |
| Squat1m.TrackKeepsInv | squat-scoring-logic-1meter.js:433-456 | the trackers' severities stay in [0, 1] |
| Squat1m.RepOfInUnit | squat-scoring-logic-1meter.js:497-513 | a stored rep's form score and severities lie in [0, 1] |
| Squat1m.CompleteRepKeepsInv | squat-scoring-logic-1meter.js:494-538 | completing a rep keeps the state invariant |
| Squat1m.UpdateKeepsInv | squat-scoring-logic-1meter.js:413-541 | every frame keeps every stored rep well formed |
| Squat1m.UpdateStoresEveryRep | squat-scoring-logic-1meter.js:494-515 | with the torso present every counted rep is stored: the number of stored reps stays equal to the count |
| Squat1m.WindowExpiryFinishes | squat-scoring-logic-1meter.js:419-426 | past the 12-second window the next frame that passes the position check stops the test and reports the final score of the reps so far |
| Squat1m.FifthRepFinishes | squat-scoring-logic-1meter.js:536-538 | the frame that counts the fifth rep stops the test and reports the rep and the final score |
| Squat1m.SessionPreserved | squat-scoring-logic-1meter.js:392-605 | for frames carrying both shoulders and both hips, every operation keeps at most five reps, fewer than five while a test runs, and no finish in progress |
| Squat1m.UpdateIdleWhenStopped | squat-scoring-logic-1meter.js:414 | after a reset or a stop a frame changes nothing and reports nothing |
| Squat1m.Finish | squat-scoring-logic-1meter.js:567-576 | nothing while already finishing; otherwise the test stops with its reps and count kept and the final score of the stored reps is reported with them |
| Squat1m.Reset | squat-scoring-logic-1meter.js:578-590 | no test, not finishing, no reps, phase UP, an empty knee buffer, minima at 999 and an empty heel baseline; the heel flag and severity are kept; the invariant is preserved |
| Squat1m.Stop | squat-scoring-logic-1meter.js:592-605 | as `Reset`, and the heel flag is cleared as well; the invariant is preserved |
| Squat1m.StopIsResetClearingHeelFlag | squat-scoring-logic-1meter.js:578-605 | `stopTest` is `resetTestState` that also clears the heel flag |
| Squat1m.Evaluator.constructor | squat-scoring-logic-1meter.js:13-51 | the module variables start in their initial state: no test, no reps, UP |
| Squat1m.Evaluator.StartTest | squat-scoring-logic-1meter.js:392-411 | `startTest` does nothing while a test runs, otherwise starts at `now` with no reps and all trackers cleared |
| Squat1m.Evaluator.FinishTest | squat-scoring-logic-1meter.js:567-576 | `finishTest` does nothing while finishing, otherwise clears the start time and reports the final score and the reps |
| Squat1m.Evaluator.WarmupHeelBaselineBeforeGo | squat-scoring-logic-1meter.js:66-72 | a warm-up frame only folds the feet into the heel baseline as a standing frame |
| Squat1m.Evaluator.TrackMinimaFrame | squat-scoring-logic-1meter.js:433-442 | buffers the frame's knee angle on a squatting frame and lowers the knee and hip minima |
| Squat1m.Evaluator.TrackSquatFrame | squat-scoring-logic-1meter.js:444-456 | runs the heel, stance and shoulder trackers on a DOWN or MID frame |
| Squat1m.Evaluator.CountRep | squat-scoring-logic-1meter.js:494-538 | counts, stores and reports the rep as `CompleteRep` |
| Squat1m.Evaluator.AdvanceRep | squat-scoring-logic-1meter.js:458-540 | the rep-phase transition as `Transition` |
| Squat1m.Evaluator.UpdateReps | squat-scoring-logic-1meter.js:413-541 | `updateReps` changes the state and reports events exactly as `Update` |
| Squat1m.Evaluator.ResetTestState | squat-scoring-logic-1meter.js:578-590 | `resetTestState` as `Reset` |
| Squat1m.Evaluator.StopTest | squat-scoring-logic-1meter.js:592-605 | `stopTest` as `Stop` |
| Squat1m.Evaluator.SetFinishing | squat-scoring-logic-1meter.js:619-621 | only the finishing flag changes |
| Squat2m.Start | squat-scoring-logic-2meter.js:369-387 | a running test is left untouched; otherwise the test starts at `now` with no reps, phase UP, minima at 999, no heel lift, an empty heel baseline, and the invariant holds |
| Squat2m.Track | squat-scoring-logic-2meter.js:409-426 | the knee minimum becomes the smaller of itself and the frame's angle, the hip minimum at most the frame's depth; heel lifts are never withdrawn; a frame that is not DOWN or MID leaves the heel, stance and shoulder trackers alone |
| Squat2m.ValidReadings | squat-scoring-logic-2meter.js:404-407 | only valid readings of a run of frames are kept |
| Squat2m.TrackRunKneeMinBelow | squat-scoring-logic-2meter.js:411 | over a rep the knee minimum is at most its start value and every valid frame's angle |
| Squat2m.TrackRunKneeMinAttained | squat-scoring-logic-2meter.js:411 | over a rep the knee minimum is its start value or some valid frame's angle: the least angle seen |
| Squat2m.CompleteRep | squat-scoring-logic-2meter.js:461-502 | completing a rep adds exactly one to the count, keeps the stored reps and stores one more exactly when the torso is present, returns to UP exactly then, and reports the new count first |
| Squat2m.Transition | squat-scoring-logic-2meter.js:428-503 | the count moves by at most one, and by one exactly on an UP frame in the DOWN phase; the phase changes only UP to DOWN on a DOWN frame or DOWN to UP with the torso present; a MID or UNKNOWN frame changes nothing |
| Squat2m.Update | squat-scoring-logic-2meter.js:389-504 | with no test running, or out of position for an exercise other than high-knee, a frame changes nothing and reports nothing; otherwise the count moves by at most one |
| Squat2m.CompleteRepFinishes | squat-scoring-logic-2meter.js:483-502 | the rep that reaches five ends the test and reports the rep, then the final score |
| Squat2m.UpdateCountsReps | squat-scoring-logic-2meter.js:389-504 | a frame adds one rep exactly on a live, valid UP frame in the DOWN phase |
| Squat2m.TrackKeepsInv | squat-scoring-logic-2meter.js:409-426 | the trackers' severities stay in [0, 1] |
| Squat2m.RepOfInUnit | squat-scoring-logic-2meter.js:466-481 | a stored rep's form score and severities lie in [0, 1] |
| Squat2m.CompleteRepKeepsInv | squat-scoring-logic-2meter.js:461-502 | completing a rep keeps the state invariant |
| Squat2m.UpdateKeepsInv | squat-scoring-logic-2meter.js:389-504 | every frame keeps every stored rep well formed |
| Squat2m.FifthRepFinishes | squat-scoring-logic-2meter.js:499-501 | the frame that counts the fifth rep stops the test and reports the rep and the final score |
| Squat2m.SessionPreserved | squat-scoring-logic-2meter.js:369-564 | for frames carrying both shoulders and both hips, every operation keeps at most five reps, fewer than five while a test runs, and no finish in progress |
| Squat2m.ResetKeepsHeelTracking | squat-scoring-logic-2meter.js:541-564 | unlike at 1 m, reset and stop keep the heel tracker and severity; only stop clears the heel flag |
| Squat2m.UpdateIdleWhenStopped | squat-scoring-logic-2meter.js:390 | after a reset or a stop a frame changes nothing and reports nothing |
| Squat2m.Finish | squat-scoring-logic-2meter.js:530-539 | nothing while already finishing; otherwise the test stops with its reps and count kept and the final score of the stored reps is reported with them |
| Squat2m.Reset | squat-scoring-logic-2meter.js:541-551 | no test, not finishing, no reps, phase UP, minima at 999 and the stance and shoulder trackers cleared; the invariant is preserved |
| Squat2m.Stop | squat-scoring-logic-2meter.js:553-564 | as `Reset`, and the heel flag is cleared as well; the invariant is preserved |
| Squat2m.WindowExpiryFinishes | squat-scoring-logic-2meter.js:396-403 | past the 12-second window the next frame that passes the position check stops the test and reports the final score |
| Squat2m.Evaluator.constructor | squat-scoring-logic-2meter.js:11-28 | the module variables start in their initial state |
| Squat2m.Evaluator.StartTest | squat-scoring-logic-2meter.js:369-387 | `startTest` as `Start`: nothing while a test runs |
| Squat2m.Evaluator.FinishTest | squat-scoring-logic-2meter.js:530-539 | `finishTest` as `Finish` |
| Squat2m.Evaluator.WarmupHeelBaselineBeforeGo | squat-scoring-logic-2meter.js:43-49 | a warm-up frame only folds the feet into the heel baseline |
| Squat2m.Evaluator.TrackFrame | squat-scoring-logic-2meter.js:409-426 | the minima and the squatting-frame trackers as `Track` |
| Squat2m.Evaluator.CountRep | squat-scoring-logic-2meter.js:461-502 | counts, stores and reports the rep as `CompleteRep` |
| Squat2m.Evaluator.UpdateReps | squat-scoring-logic-2meter.js:389-504 | `updateReps` changes the state and reports events exactly as `Update` |
| Squat2m.Evaluator.ResetTestState | squat-scoring-logic-2meter.js:541-551 | `resetTestState` as `Reset` |
| Squat2m.Evaluator.StopTest | squat-scoring-logic-2meter.js:553-564 | `stopTest` as `Stop` |
| Squat2m.Evaluator.SetFinishing | squat-scoring-logic-2meter.js:578-580 | only the finishing flag changes |
| TPose.AsymmetricQuality | t-pose-scoring-logic-2meter.js:23-32 | the quality lies in [0, 1]: 1 inside the accepted band around the target, 0 at or past either zero offset |
| TPose.AsymmetricQualityBelowBand | t-pose-scoring-logic-2meter.js:26-29 | below the band the quality never falls as the value approaches the target |
| TPose.Candidate | t-pose-scoring-logic-2meter.js:76-81 | the left leg is the candidate stance exactly when the left ankle is more than 0.02 below the right, the right exactly when it is more than 0.02 above |
| TPose.TakeSample | t-pose-scoring-logic-2meter.js:126-146 | a hold sample is tagged with the stance leg and the elapsed time, and its torso deviation and sway are non-negative |
| TPose.Acquire | t-pose-scoring-logic-2meter.js:83-101 | without a stance, one is adopted exactly when the candidate repeats the pending one and the wait reaches 400 ms, and then it is the candidate with a hold reset to 0; a new or missing candidate restarts the wait at 0; the best hold is untouched |
| TPose.Lose | t-pose-scoring-logic-2meter.js:104-121 | the stance is released exactly when the disagreement reaches 450 ms, clearing the stance and the current hold; the best hold never shrinks and changes only to a strictly longer current hold, with its leg |
| TPose.Keep | t-pose-scoring-logic-2meter.js:122-154 | the hold grows by the frame's delta and gains this frame's sample, the wait is cleared, the current hold stays within the best, and the best changes only to the current hold and leg |
| TPose.Balance | t-pose-scoring-logic-2meter.js:76-154 | a held stance never switches directly to the other leg, a new stance is the frame's candidate, the best hold never shrinks, and the start and last times are untouched |
| TPose.Update | t-pose-scoring-logic-2meter.js:62-155 | with no test running, or out of position, a frame changes nothing; the window's end is reported exactly past 10 s and then only the last time changes; the best hold never shrinks |
| TPose.AdoptionNeedsConfirm | t-pose-scoring-logic-2meter.js:83-101 | without a stance, one is adopted exactly when the frame repeats the pending candidate and the accumulated wait reaches 400 ms; the adopted leg is the candidate and the hold starts at 0 |
| TPose.ChangedCandidateRestartsWait | t-pose-scoring-logic-2meter.js:84-88 | without a stance, a missing or different candidate restarts the wait at 0 with that candidate pending |
| TPose.ReleaseNeedsLoss | t-pose-scoring-logic-2meter.js:104-121 | a held stance is released exactly when the frame disagrees and the accumulated disagreement reaches 450 ms; release clears the stance and the current hold |
| TPose.InitialInv | t-pose-scoring-logic-2meter.js:45-60 | the initial and the freshly started states satisfy the invariant |
| TPose.UpdateKeepsInv | t-pose-scoring-logic-2meter.js:62-155 | every frame keeps the current hold within the best, no hold without a stance, and the best buffer empty exactly when the best hold is 0 |
| TPose.BestHoldOnlyGrows | t-pose-scoring-logic-2meter.js:148-154 | the best hold never shrinks and changes only to a strictly longer hold copied from the current buffer |
| TPose.ReleaseKeepsBest | t-pose-scoring-logic-2meter.js:107-112 | releasing a stance never changes the best hold: the comparison at release is always false |
| TPose.BestHoldRunMonotone | t-pose-scoring-logic-2meter.js:62-155 | over any run of frames the invariant holds and the best hold never shrinks |
| TPose.PendingCountsElapsedTime | t-pose-scoring-logic-2meter.js:68-69 | while the same candidate is read the wait equals the elapsed time since the last frame before the run, and no stance is adopted while that stays under 400 ms |
| TPose.StanceKneeQuality | t-pose-scoring-logic-2meter.js:192 | the stance-knee quality lies in [0, 1], 1 exactly from 170 degrees, 0 exactly at 140 degrees or less |
| TPose.TorsoQuality | t-pose-scoring-logic-2meter.js:193 | the torso quality lies in [0, 1], 1 exactly for no deviation, 0 exactly from 30 degrees |
| TPose.SwayQuality | t-pose-scoring-logic-2meter.js:194 | the sway quality lies in [0, 1], 1 exactly for no sway, 0 exactly from 0.2 |
| TPose.HipAngleQuality | t-pose-scoring-logic-2meter.js:199-215 | the hip-angle quality lies in [0, 1]: 1 exactly up to 70 degrees, 0 exactly from 140 degrees |
| TPose.HipAngleQualityMonotone | t-pose-scoring-logic-2meter.js:196-215 | a lower hip angle (higher thigh lift) never scores lower |
| TPose.LiftedKneeQuality | t-pose-scoring-logic-2meter.js:219-228 | the lifted-knee quality lies in [0, 1], is 1 exactly at 90 degrees, at least 0.5 in [70, 110] and at most 0.75 outside |
| TPose.FormScore | t-pose-scoring-logic-2meter.js:230-232 | the form score lies in [0, 100], and at most 30 when neither the lifted hip nor the lifted knee scores |
| TPose.FinalScore | t-pose-scoring-logic-2meter.js:236-251 | the final score lies in [0, 100]; a hold under 5 s scores at most half the form score; a valid hold scores at least 10 plus 80% of the form score |
| TPose.Finish | t-pose-scoring-logic-2meter.js:157-259 | an empty best hold gives zeros and no validity; scores lie in [0, 100]; valid exactly when the leg was lifted (hip average under 160) and the best hold lasted 5 s; an unlifted leg scores 0; a lifted leg gets the form score of the averaged metrics and the final score computed from its hip and knee lift qualities, that form score and the hold in seconds; an invalid hold scores at most half the form score; the leg is the best hold's, else the current stance |
| TPose.TPoseBalanceFinalScore | t-pose-scoring-logic-2meter.js:261-263 | the result's final score, 0 without a result |
| TPose.FinishedScore | t-pose-scoring-logic-2meter.js:157-263 | a finished test scores in [0, 100], 0 without a best hold, at most half the form score when invalid, and at least 10 points plus 80% of the form score when valid with a lift that scores |
| TPose.Balancer.constructor | t-pose-scoring-logic-2meter.js:2-15 | the state starts with no test and empty buffers |
| TPose.Balancer.StartTPoseBalanceTest | t-pose-scoring-logic-2meter.js:45-60 | starting sets the start and last times to `now` and clears everything else |
| TPose.Balancer.ResetTPoseBalanceState | t-pose-scoring-logic-2meter.js:265-279 | the reset state is the initial state |
| TPose.Balancer.UpdateTPoseBalance | t-pose-scoring-logic-2meter.js:62-155 | `updateTPoseBalance` changes the state and reports the window's end exactly as `Update` |
| ForwardBend.MetricsOf | forward-bend-scoring-logic-1meter.js:118-159 | the hip angle and knee bend lie in [0, 180]; reach, sway and the hip-thoracic ratio are non-negative |
| ForwardBend.Update | forward-bend-scoring-logic-1meter.js:54-116 | with no test running, or out of position, a frame changes nothing; the window's end is reported exactly past 9 s and then only the last sample time changes; the best hold never shrinks and changes only to the current hold, and validity is never withdrawn |
| ForwardBend.StartInv | forward-bend-scoring-logic-1meter.js:41-52 | the initial and freshly started states satisfy the invariant |
| ForwardBend.UpdateKeepsInv | forward-bend-scoring-logic-1meter.js:54-116 | every frame keeps the current hold within the best one, validity only with a one-second best hold, and no best metrics only with the -1 wrist marker |
| ForwardBend.HoldAndGrace | forward-bend-scoring-logic-1meter.js:83-115 | a bending frame adds its delta to the hold and refills the 500 ms grace; a straight frame drains the grace, floored at 0, and clears the hold exactly when the grace is used up |
| ForwardBend.BestHoldAndValidity | forward-bend-scoring-logic-1meter.js:100-108 | the best hold never shrinks and changes only to the current hold, so it is the longest hold seen; it covers the current hold after a bending frame; validity is never withdrawn and is gained exactly by a bending frame whose hold reaches one second |
| ForwardBend.BestMetricsOnlyDeeper | forward-bend-scoring-logic-1meter.js:88-98 | the best metrics change only on a bending frame that is the first bend or reaches more than 0.01 lower, and become that frame's metrics |
| ForwardBend.FirstBendRecorded | forward-bend-scoring-logic-1meter.js:89-91 | the first bending frame of a test always records its metrics |
| ForwardBend.HipPenalty | forward-bend-scoring-logic-1meter.js:189-209 | the hip penalty lies in [0, 9.5], 0 up to 70 degrees, and within each band's documented range (at most 1 to 90, 1 to 2.5 to 110, 2.5 to 5 to 130, 5 to 8 to 150, at least 8 above) |
| ForwardBend.HipPenaltyMonotone | forward-bend-scoring-logic-1meter.js:189-209 | a deeper bend is never penalised more |
| ForwardBend.KneePenalty | forward-bend-scoring-logic-1meter.js:211-222 | the knee penalty lies in [0, 2], 0 up to 15 degrees of bend and at least 1 beyond 30 |
| ForwardBend.SwayPenalty | forward-bend-scoring-logic-1meter.js:224-225 | the sway penalty lies in [0, 0.5] and is 0 up to 0.08 |
| ForwardBend.Bonus | forward-bend-scoring-logic-1meter.js:227-229 | the bonus lies in [0, 1]; it is 1 exactly for a hip angle under 60 with a knee bend under 10, and 0 exactly when neither holds |
| ForwardBend.FormScore | forward-bend-scoring-logic-1meter.js:172-232 | the form score lies in [0, 10]; 0 without metrics or above 160 degrees; 10 for a deep, straight-legged, steady bend; at most 2.5 above 150 degrees |
| ForwardBend.FormScoreDeeperNoWorse | forward-bend-scoring-logic-1meter.js:179-209 | bending deeper, all else equal, never lowers the form score |
| ForwardBend.Finish | forward-bend-scoring-logic-1meter.js:255-274 | no result exactly when no bend was recorded; otherwise the best metrics, the validity and the best hold, with the form score scaled to [0, 1] |
| ForwardBend.FinalScore | forward-bend-scoring-logic-1meter.js:234-253 | 0 without a valid result or above 160 degrees; otherwise in [0, 100] and at least the completion points for the hold |
| ForwardBend.FinishedScore | forward-bend-scoring-logic-1meter.js:234-274 | a valid finished bend scores 15 for the hold plus 85 times the form fraction, rounded, so between 15 and 100 |
| ForwardBend.ForwardBendTest.constructor | forward-bend-scoring-logic-1meter.js:11-26 | the state starts with no test, the -1 wrist marker and no metrics |
| ForwardBend.ForwardBendTest.StartForwardBendTest | forward-bend-scoring-logic-1meter.js:41-52 | starting sets the start and last sample time to `now` and clears the rest |
| ForwardBend.ForwardBendTest.ResetForwardBendState | forward-bend-scoring-logic-1meter.js:280-289 | the reset state is the initial state |
| ForwardBend.ForwardBendTest.UpdateForwardBend | forward-bend-scoring-logic-1meter.js:54-116 | `updateForwardBend` changes the state and reports the window's end exactly as `Update` |
| ForwardBendPose.ForwardBendMetrics | forward-bend-pose-detection-1meter.js:31-56 | the hip flexion is the smaller of the two hip-knee-ankle angles, the thoracic flexion the smaller shoulder-hip-knee angle, the knee bend the complement of the hip flexion, and the reach 1 when the nose is level with the ankles |
| ForwardBendPose.KneeBendInRange | forward-bend-pose-detection-1meter.js:31-44 | with both legs seen and non-degenerate, the flexion and the knee bend lie in [0, 180] |
| HighKnee.ReadLeg | high-knee-scoring-logic-1meter.js:90-108 | a leg's knee bend (180 minus the knee angle, floored at 0) is never negative |
| HighKnee.LegUp | high-knee-scoring-logic-1meter.js:110-125 | hysteresis: a lift over 0.06 or a bend over 15 degrees always raises the leg, a lift of at most 0.03 with a bend of at most 8 always lowers it; a lowered leg rises only on the higher thresholds and a raised one drops only below the lower ones |
| HighKnee.LegUpHysteresis | high-knee-scoring-logic-1meter.js:110-122 | hysteresis: a leg that would rise from down stays up when already up, and a leg that falls from up would not have risen |
| HighKnee.LiftedLeg | high-knee-scoring-logic-1meter.js:127-137 | no leg when neither is up; the only raised leg when one is up; with both up the higher one when the lifts differ by more than 0.03, else the last lifted leg |
| HighKnee.RepOf | high-knee-scoring-logic-1meter.js:147-171 | the rep record carries the lifted leg, the elapsed time and a non-negative torso deviation |
| HighKnee.OutOfPosition | high-knee-scoring-logic-1meter.js:65-75 | out of position: no start time, no reps, no history, no last leg and the knee minima back at 999; the leg up flags and the last count time are kept; the invariant holds |
| HighKnee.Record | high-knee-scoring-logic-1meter.js:139-184 | a counted rep adds one to the count, appends its record, remembers its leg and time, keeps the start time, and lowers only its own leg's knee minimum to at most its lifted-knee angle |
| HighKnee.March | high-knee-scoring-logic-1meter.js:78-184 | a frame inside the window either counts nothing, or counts exactly one rep of a leg other than the last counted one, at least 180 ms after it, appended with the elapsed time; the rep count is spoken only on a multiple of five |
| HighKnee.Update | high-knee-scoring-logic-1meter.js:62-185 | with no test running a frame changes nothing; out of position the test is abandoned as `OutOfPosition`; the window's end is reported exactly past 10 s; the count moves by at most one and is spoken only when it rises to a multiple of five |
| HighKnee.StartInv | high-knee-scoring-logic-1meter.js:47-60 | the initial and freshly started states satisfy the invariant |
| HighKnee.AppendAlternating | high-knee-scoring-logic-1meter.js:139-143 | appending a rep of the other leg keeps the history alternating |
| HighKnee.AppendSpaced | high-knee-scoring-logic-1meter.js:142 | appending a rep at least 180 ms after the last keeps the history spaced |
| HighKnee.AppendMinima | high-knee-scoring-logic-1meter.js:150-155 | lowering the knee minima by the new rep gives the minima of the extended history |
| HighKnee.RecordKeepsInv | high-knee-scoring-logic-1meter.js:144-183 | recording an allowed rep keeps the invariant |
| HighKnee.UpdateKeepsInv | high-knee-scoring-logic-1meter.js:62-185 | every frame keeps the count equal to the history's length, the history alternating between legs and spaced by at least 180 ms, its last rep's leg remembered, and each knee minimum the least lifted-knee angle of that leg's reps |
| HighKnee.OutOfPositionClears | high-knee-scoring-logic-1meter.js:65-75 | out of position a running test is abandoned: no start time, no reps, no last leg and no minima |
| HighKnee.CountsOneRep | high-knee-scoring-logic-1meter.js:139-184 | a frame counts exactly one rep, appended to the history with the lifted leg, when its lifted leg differs from the last counted one and 180 ms have passed; otherwise count and history are unchanged |
| HighKnee.KneeMinimaNeverIncrease | high-knee-scoring-logic-1meter.js:150-155 | within a running test the knee minima never rise |
| HighKnee.Intervals | high-knee-scoring-logic-1meter.js:213-217 | at most one gap per consecutive pair of reps, each positive |
| HighKnee.SpacedIntervals | high-knee-scoring-logic-1meter.js:213-217 | for reps at least 180 ms apart every consecutive gap is kept and each is at least 180 ms |
| HighKnee.RhythmIntervals | high-knee-scoring-logic-1meter.js:213-217 | the loop collects exactly the positive consecutive gaps |
| HighKnee.RhythmScore | high-knee-scoring-logic-1meter.js:212-226 | the rhythm score lies in [0, 100] and is 100 with fewer than four gaps |
| HighKnee.Pow14 | high-knee-scoring-logic-1meter.js:229 | the stand-in for `Math.pow(q, 1.4)` maps [0, 1] into [0, 1], fixing 0 and 1 |
| HighKnee.Pow14Monotone | high-knee-scoring-logic-1meter.js:229 | the power is monotone on [0, 1] |
| HighKnee.RepScore | high-knee-scoring-logic-1meter.js:228-229 | the rep score lies in [0, 100]: 0 for no reps, 100 from 18 reps |
| HighKnee.RepScoreMonotone | high-knee-scoring-logic-1meter.js:228-229 | more reps never score lower |
| HighKnee.FormScore | high-knee-scoring-logic-1meter.js:231-235 | the form score lies in [0, 100]; it is 100 for a lift of at least a quarter of the leg, a lifted knee bent to 105 degrees or less, a standing knee of 175 degrees or more and a torso within 8 degrees, and 0 at the opposite ends of all four ranges |
| HighKnee.KneeQualityEnds | high-knee-scoring-logic-1meter.js:232 | the lifted-knee quality is 1 at 105 degrees or less and 0 at 140 or more |
| HighKnee.TorsoQualityEnds | high-knee-scoring-logic-1meter.js:234 | the torso quality is 1 within 8 degrees and 0 from 25 degrees |
| HighKnee.FormScoreMonotoneInLift | high-knee-scoring-logic-1meter.js:231-235 | with the other averages fixed, a higher average lift never lowers the form score |
| HighKnee.FinalScore | high-knee-scoring-logic-1meter.js:237 | the final score lies in [0, 100], is 100 for perfect rep and form scores and is at least 70% of the rep score |
| HighKnee.Finish | high-knee-scoring-logic-1meter.js:187-251 | no reps give all zeros; every score lies in [0, 100]; otherwise the rep count and rep score come from the count, the rhythm score from the gaps, the form score from the averages of the recorded reps' lift, standing knee and torso deviation together with the smaller of the two tracked knee minima, and the final score from rep and form scores |
| HighKnee.RhythmUsesEveryGap | high-knee-scoring-logic-1meter.js:213-217 | for a history kept by the tracker, the rhythm sees one gap per pair of consecutive reps |
| HighKnee.HighKneeMarchFinalScore | high-knee-scoring-logic-1meter.js:253-255 | the result's final score, 0 without a result |
| HighKnee.FinishedScore | high-knee-scoring-logic-1meter.js:187-255 | a finished march scores in [0, 100], 0 without reps and at least 70 from 18 reps |
| HighKnee.HighKneeMarch.constructor | high-knee-scoring-logic-1meter.js:10-21 | the state starts with no test, no reps and no minima |
| HighKnee.HighKneeMarch.StartHighKneeMarchTest | high-knee-scoring-logic-1meter.js:47-60 | starting sets the start time and clears everything else |
| HighKnee.HighKneeMarch.ResetHighKneeMarchState | high-knee-scoring-logic-1meter.js:257-270 | the reset state is the initial state |
| HighKnee.HighKneeMarch.UpdateHighKneeMarch | high-knee-scoring-logic-1meter.js:62-185 | `updateHighKneeMarch` changes the state and reports events exactly as `Update` |
| HighKnee.HighKneeMarch.FinishHighKneeMarchTest | high-knee-scoring-logic-1meter.js:187-251 | the method, with its interval loop, computes exactly `Finish` of the state |
| Plank.BodyLine | plank-scoring-logic-1meter.js:45-52 | the body angle at the hip midpoint and the shoulder-hip height difference, which is non-negative |
| Plank.SampleOf | plank-scoring-logic-1meter.js:86-94 | a sample carries the frame's body line and the elapsed time |
| Plank.IsPlankPosition | plank-scoring-logic-1meter.js:54 | a plank position has a body line less than 20 degrees off straight and a vertical gap under 0.15 |
| Plank.Debounce | plank-scoring-logic-1meter.js:56-84 | the best hold never shrinks, and changes only to the current hold of a held plank frame; entering or leaving clears the hold and the wait; a plank frame in the plank extends the hold by the delta within the best |
| Plank.Update | plank-scoring-logic-1meter.js:31-95 | with no test running, or out of position, a frame changes nothing, not even the last timestamp; the window's end is reported exactly past 30 s and then only the timestamp changes; the best hold never shrinks; the history at most gains one sample at its end |
| Plank.EntryNeedsConfirm | plank-scoring-logic-1meter.js:56-68 | outside the plank, the plank is entered exactly when the frame is a plank position and the accumulated wait reaches 500 ms; a non-plank frame clears the wait; entry starts the hold at 0 |
| Plank.LeavingNeedsLoss | plank-scoring-logic-1meter.js:70-80 | in the plank, it is left exactly when the frame is not a plank position and the accumulated loss reaches 600 ms; leaving clears the hold; a plank frame clears the wait |
| Plank.StartInv | plank-scoring-logic-1meter.js:24-29 | the initial and freshly started states satisfy the invariant |
| Plank.DebounceKeepsHold | plank-scoring-logic-1meter.js:56-84 | the debounce keeps the current hold within the best, no hold outside the plank, and never lowers the best hold |
| Plank.UpdateKeepsInv | plank-scoring-logic-1meter.js:31-95 | every frame keeps the invariant (only plank positions recorded), never lowers the best hold, and at most appends one sample to the history |
| Plank.RecordedOnlyWhileHolding | plank-scoring-logic-1meter.js:56-94 | a sample is recorded exactly on a plank-position frame while the plank is held; entering frames record nothing |
| Plank.ConfirmCountsElapsedTime | plank-scoring-logic-1meter.js:37-38 | over a run of plank frames the wait grows by the elapsed time since the frame before the run, and the plank is not entered while that stays under 500 ms |
| Plank.BestHoldRunMonotone | plank-scoring-logic-1meter.js:80-84 | over any run of frames the invariant holds and the best hold never shrinks |
| Plank.BodyAngleQualityAsWritten | plank-scoring-logic-1meter.js:124 | the body-angle quality as written lies in [0, 1] and is 1 for every average within 180 degrees of straight, which includes every average of recorded samples |
| Plank.BodyAngleQuality | plank-scoring-logic-1meter.js:124 | the corrected quality lies in [0, 1], is 1 exactly for a straight (180 degree) body and 0 exactly from 20 degrees of deviation |
| Plank.BodyAngleQualityMonotone | plank-scoring-logic-1meter.js:124 | a straighter body never scores lower under the corrected quality |
| Plank.BodyAngleQualityAlwaysFull | plank-scoring-logic-1meter.js:124 | for any recorded history the written quality of its average is 1, so 161 and 180 degrees score alike, while the corrected quality tells them apart |
| Plank.FormScoreOf | plank-scoring-logic-1meter.js:124-130 | the weighted form score of a body-line quality in [0, 1] and the knee, elbow and alignment readings lies in [0, 100] |
| Plank.FormScoreOfMonotone | plank-scoring-logic-1meter.js:124-130 | a better body-line quality never lowers the form score |
| Plank.FormScore | plank-scoring-logic-1meter.js:124-130 | the form score as written lies in [0, 100] and, for any average within 180 degrees of straight, equals the score of a perfect body line |
| Plank.FormScoreCorrected | plank-scoring-logic-1meter.js:124-130 | the form score with the corrected body-line quality lies in [0, 100], never exceeds the as-written score and equals it for a straight line |
| Plank.FormScoreDiscrepancy | plank-scoring-logic-1meter.js:124-132 | a 170-degree average with straight knees, elbows at 100 and level hips scores 100 as written but 80 corrected; with a 30 s hold the final scores are 100 and 86 |
| Plank.FinalScore | plank-scoring-logic-1meter.js:132 | the final score lies in [0, 100], between 70% of the form score and 30 plus that; under 10 s at most 10 plus that; from 30 s exactly 30 plus that |
| Plank.HoldQualityBounds | plank-scoring-logic-1meter.js:132 | the hold quality lies in [0, 1], contributes under 10 points below 10 s and is full from 30 s |
| Plank.FinalScoreMonotone | plank-scoring-logic-1meter.js:132 | a longer hold never scores lower |
| Plank.Finish | plank-scoring-logic-1meter.js:97-141 | the empty result exactly without samples; both scores in [0, 100]; otherwise valid exactly when the best hold lasted 10 s, the form score as written from the averages, and the final score from the best hold and that form score |
| Plank.BodyLineNeverMovesScore | plank-scoring-logic-1meter.js:97-130 | on a finished test the as-written form score is that of a perfect body line, whatever angles were recorded |
| Plank.FinishCorrected | plank-scoring-logic-1meter.js:97-141 | the corrected result differs from the as-written one only in its two scores, which are never higher, and coincide for a straight average line |
| Plank.PlankFinalScore | plank-scoring-logic-1meter.js:143-145 | the result's final score, 0 without a result |
| Plank.FinishedScore | plank-scoring-logic-1meter.js:97-145 | a finished test scores in [0, 100], 0 when nothing was recorded |
| Plank.PlankTest.constructor | plank-scoring-logic-1meter.js:2-5 | the state starts with no test and no samples |
| Plank.PlankTest.StartPlankTest | plank-scoring-logic-1meter.js:24-29 | starting sets the start and last times to `now` and clears the rest |
| Plank.PlankTest.ResetPlankState | plank-scoring-logic-1meter.js:147-152 | the reset state is the initial state |
| Plank.PlankTest.UpdatePlank | plank-scoring-logic-1meter.js:31-95 | `updatePlank` changes the state and reports the window's end exactly as `Update` |

## Left out

- `main.js`, the voice-instruction modules, `voice-module.js`, `server.js` and the `*-handlers-*.js` pass-throughs are not part of this model. They are DOM wiring, speech prompts, HTTP and file I/O, with no evaluation logic.
- MediaPipe set-up, detection and drawing in `poseDetection.js` (`initializePoseLandmarker`, `runPoseDetectionFrame`) are left out: they call a foreign library and a canvas. The detector's output is the `Frame` parameter.
- `captureFrame` and the best-frame bookkeeping (`currentRepBestFrame`, the `lastDownCapture*` throttling fields, `bestFrameIndex`, stored `frame` snapshots) are left out. Capture is a best-effort side effect whose failure the source swallows, and no score depends on it.
- The plain getters (`getRepData`, `getTestState`, `getIsFinishing`, `getForwardBendState`) and the orientation tracker's `getDebug` are left out: they only expose state the model already holds.
- Prompt bookkeeping fields that no decision or score depends on (`feedbackCooldownMs`, `positionWarned`, `needsGoCommand`, `instructionSpoken`) are left out.
- The 2 m forward-bend, high-knee and plank scoring files and the 1 m t-pose scoring file are not part of this model. The t-pose model follows `t-pose-scoring-logic-2meter.js`.
- Floating-point arithmetic is modelled over exact reals. `NaN`, `Number.isFinite` guards and `??` fallbacks that only catch a `NaN` or `undefined` produced by the arithmetic have no counterpart.
- `performance.now()` is the `now` parameter of each update, and the callbacks `onRepSpeak` and `onTestFinish` are returned events or flags.
- The classes group the source's module-level fields into a few record-valued fields (for example the per-rep trackers of the squat counters). The values are the same; only the grouping differs.
- Evaluators that read a landmark without checking it take `requires Complete(lm)` (all 33 landmarks present, as the detector delivers them). On a frame with a missing landmark the source would throw, and that path is not modelled.
- The exception is the squat's `symmetry` (1 m and 2 m), which reads the torso landmarks unchecked after the rep is counted. `Squat1m.CompleteRep` and `Squat2m.CompleteRep` model that throw: with the torso missing, the count rises, no rep record is stored and the fifth rep does not finish the test. `Squat1m.SessionPreserved` and `Squat2m.SessionPreserved` therefore hold only for frames carrying both shoulders and both hips; without them the count can pass five.
- `ForwardBend.FinalScore`: the fallback to `holdFrames` when `holdMs` is absent is not modelled, because `finishForwardBendTest` always sets `holdMs`.
- `HighKnee.Finish`: the rhythm score is computed and reported but, as in the source, does not enter the final score.
- `TPose.Update`: the release-time update of the best hold cannot fire, since the current hold never exceeds the best hold (see `TPose.ReleaseKeepsBest`). It is modelled as written.
- `Orientation.OrientationTracker.Update`: the soft-suspect test contains every condition of the hard-suspect test, so every suspect frame is a hard one and sets the score to its maximum (see `Orientation.BackSuspectIsHard`). One suspect frame therefore confirms a back-facing pose. The model follows the code.
- `PoseDetection.HasVisibleLowerBody`: the visibility of the hips is not consulted, only that of the knees and ankles. The model follows the code. Its contract states the direction "visible implies the listed conditions" only.
- `Plank.Update`: an out-of-position frame returns before the timestamp is stored, so the next in-position frame's delta includes the whole gap. The model follows the code.
- `Geometry.Sqrt`: a stand-in for `Math.sqrt` that keeps only the sign (non-negative, positive exactly for a positive argument). Its values are not square roots.
- `Geometry.AcosDegrees`: a stand-in for `Math.acos` in degrees that keeps only the range [0, 180] and the values at -1 and 1. Every angle member (`Geometry.Angle`, `SquatTrackers.AngleBetween`, `SquatTrackers.ArmAngle`, `SquatTrackers.ShoulderAngle` and the per-exercise angles) therefore states sentinels and ranges, not angle values. Every threshold decision taken on an angle (the squat DOWN/MID/UP phase, the plank's 160-200 degree band, the forward bend's 160 degree cut, the high-knee leg-up bend) is taken on the stand-in value, so for a concrete frame the model's decision can differ from the program's. No proved property depends on the stand-in's values.
- `HighKnee.Pow14`: a stand-in (`x * x`) for `Math.pow(x, 1.4)` on [0, 1] that keeps only the range, the end points and monotonicity.
- `HighKnee.RepScore`: built on the `Pow14` stand-in, so its value between 1 and 17 reps differs from the source. Only the range, the values at 0 and at 18 or more reps, and monotonicity are stated.
- `HighKnee.RhythmScore`: built on the `Sqrt` stand-in, so the coefficient of variation is not the source's. Only the range and the "fewer than four intervals gives 100" rule are stated.
- `SquatTrackers.Ema`: the contract states that the result lies between the history and the new sample, not the exact blend.
- `Plank.FinishCorrected`: the scores with the corrected body-line quality are stated beside the program's own result, which `Plank.Finish`, `Plank.FinishedScore` and `Plank.PlankTest` keep as written (see Findings).

## Findings

| source | as written | input that shows it | evidently intended | confidence | as-written member | corrected member |
|---|---|---|---|---|---|---|
| plank-scoring-logic-1meter.js:124 | body-line quality `clamp((200 - abs(180 - avg)) / 20, 0, 1)`, which is 1 for every average within 180 degrees of straight; samples are only recorded for 160 < angle < 200, so it is always 1 | a finished plank whose average body angle is 161 scores the same body quality (1) as one at 180; a 170-degree average with straight knees, elbows at 100, level hips and a 30 s hold scores form 100 and final 100, where the intended quality gives 80 and 86 (`Plank.FormScoreDiscrepancy`) | `clamp((20 - abs(180 - avg)) / 20, 0, 1)`: 1 only for a straight line, 0 at 20 degrees off | medium; not executed | Plank.BodyLineNeverMovesScore | Plank.FinishCorrected |
