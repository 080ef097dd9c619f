# Spatial Orientation Test — a verified model

This project models the trial engine of a web-based Spatial Orientation Test, together
with the angle arithmetic and score aggregation around it, and proves properties of
that model. The test comes in two variants. It also hands summary scores to a survey host.

* **The perspective-taking test** (`js/hegarty-sot.js`). There are seven objects at fixed positions in a
  scene. Each item says: stand at one object, face a second, point to a third. The
  participant drags a line on a circular response canvas. The program computes the
  correct angle from the positions, and scores the response by the shortest arc
  between the two angles. It runs three practice trials with a 2 s feedback dwell,
  then up to twelve timed test trials under a 300 s countdown. It ends with a
  completion screen that shows the average error and the average time.
* **The dial test** (`js/orientation-test.js`). Five scenes are each answered on a dial. The
  trial's key handler steps the dial in 5° increments on the arrow keys, and Enter scores it; the model
  takes that handler as running on every arrow press (see "## Left out"). The trials are assembled
  into a fixed timeline, and a completion page shows the averages.
* **The survey scores** (`js/qualtrics-integration.js`). These are the average angular error, the
  average response time and a 0‥100 accuracy score, computed from the trial records.

## How the model is organised

| module (file) | what it holds |
|---|---|
| `JsMath` (`js_math.dfy`) | JavaScript's truncating `%`, `Math.round` (`floor(x + 0.5)`), rounding to a tenth, left-fold sums, `Option`, and a number-or-NaN type |
| `Geometry` (`geometry.dfy`) | The correct-angle pipeline after `atan2`, pointer-angle normalisation, the display mirror, and the angular error against a shortest-arc reference |
| `SotCatalog` (`sot_catalog.dfy`) | Objects, positions and trials; `find`; `getObjectName`; `calculateCorrectAngle` |
| `SotSession` (`sot_session.dfy`) | The sequencer as one `State` value and one pure step function per event: keydown, start-button click, dwell callback, countdown tick, mouse events |
| `SotInvariant` (`sot_invariant.dfy`) | The sequencer's invariant `Inv`, and its preservation by every event |
| `SotProperties` (`sot_properties.dfy`) | What the log, the countdown and the handlers guarantee, including the races the code has |
| `SotPage` (`sot_page.dfy`) | Class `Session`, whose fields are the page's globals and event plumbing. Each event method is proved to update the fields exactly as the step function says, and to keep `Inv` |
| `OrientationTest` (`orientation_test.dfy`) | The stimuli; the arrow-key stepper; class `ResponseDial` (the shared `currentAngle`) with reset, key press and scoring; the timeline built by a loop; the completion averages |
| `QualtricsScores` (`qualtrics_scores.dfy`) | The three `calculate*` helpers, their bounds and endpoints, and their agreement with the completion page |

### Abstractions

* **Trigonometry.** `Math.atan2` in degrees is a parameter `atan2: (int, int) -> real`.
  The model assumes only that it lies in [-180, 180] (`Atan2Range`). Some lemmas also assume
  that a point straight ahead has angle 0 (`Atan2ZeroAhead`).
  * The source divides the facing vector by its length (`Math.sqrt`) before taking the dot and
    cross products. Dividing by a positive length does not change `atan2`, so the model
    computes dot and cross on the integer positions.
  * When standing and facing share a position, the length is 0 and JavaScript computes NaN.
    The model keeps that as the `NaN` value, and proves it never happens for catalog trials.
* **Time.** `Date.now()` is the `now` argument of a keydown. The 1 s `setInterval` is
  the `Tick` event, and the 2 s `setTimeout` is the `DwellDone` event. The two
  may interleave in any order, which includes every real schedule.
* **Keydown dispatch.** The document's keydown listeners are a sequence in
  registration order, each with a fresh id. A keydown is offered to a snapshot of the listeners
  taken when it arrives. A listener removed before its turn is skipped, and one added
  during dispatch does not see the event. This is the DOM's behaviour.
* **The drawing of the red answer line** (`showCorrectAnswer`) throws when the canvas is gone.
  The model keeps the effect: the rest of such a handler, which schedules the dwell, does not run.
* **The survey host** is a flag `inQualtrics` plus a count of deliveries made on the
  completion screen.
* **Numbers.** JavaScript numbers are modelled as exact `real`, or as `int` where the source only
  ever holds integers (the dial angle, positions, the countdown).

### Behaviour of the code worth knowing

* **A missing object id.** `calculateCorrectAngle` (`js/hegarty-sot.js:321-324`) logs and returns 0
  when a position is not found, and the model returns 0.
* **Averages of an empty log.** `finishTest` (`js/hegarty-sot.js:565-568`) divides by the log's
  length with no guard. A timeout before any answer therefore shows NaN, and the model
  yields `NaN` (`SotSession.Summarize`).
* **Timeout during a dwell.** `updateTimer` (`js/hegarty-sot.js:227-234`) calls `finishTest` but
  does not cancel a pending 2 s dwell (`js/hegarty-sot.js:306-309`).
  * A timeout during an earlier trial's dwell is followed by the next trial being shown under a finished
    countdown (`TimeoutDuringDwellShowsNextTrial`).
  * A timeout during the last trial's dwell makes the dwell call `finishTest` a second time
    (`TimeoutDuringLastDwellFinishesTwice`).
* **Timeout mid-trial.** A timeout in the middle of a trial leaves that trial's Enter handler attached
  (`TimeoutMidTrial`). Enter on the completion screen then still logs a record for it, after the
  averages were shown (`StaleSubmitAfterTimeout`). Which log a later hand-over to the survey host
  carries is not modelled; the model only counts the hand-overs.

## Model

| member | source | states |
|---|---|---|
| JsMath.RemInt360 | js/orientation-test.js:207-211 | JavaScript's `%` by 360 on integers: the result has the sign of the dividend, is below 360 in magnitude, differs from it by a multiple of 360, and is the dividend itself inside (-360, 360) |
| JsMath.Rem360 | js/hegarty-sot.js:365-369 | `%` by 360 on reals: in [0, 360) for non-negative input, in (-360, 0] for negative, identity inside (-360, 360), one turn less in [360, 720) |
| JsMath.Round | js/qualtrics-integration.js:50 | `Math.round` gives an integer within half a unit of its argument, halves going up |
| JsMath.RoundTenth | js/hegarty-sot.js:566 | `Math.round(x * 10) / 10` is a whole number of tenths within (x - 0.05, x + 0.05] |
| JsMath.RoundTenthUnique | js/hegarty-sot.js:566 | any whole number of tenths in (x - 0.05, x + 0.05] is `RoundTenth(x)`, so the contract above pins the value |
| Geometry.CorrectAngleFromRaw | js/hegarty-sot.js:359-369 | negating, normalising with `(a + 360) % 360` and mirroring with `(180 + a) % 360` take any raw atan2 degree value in [-180, 180] into [0, 360) |
| Geometry.CorrectAngleIsMirroredBearing | js/hegarty-sot.js:359-369 | that pipeline equals `180 - raw` taken modulo 360 |
| Geometry.PointerAngle | js/hegarty-sot.js:465-471 | the dial angle of a pointer is in [0, 360) |
| Geometry.PointerAngleIsBearing | js/hegarty-sot.js:465-471 | the dial angle is `raw + 90` taken modulo 360, so 0 is at the top |
| Geometry.MirroredAngle | js/hegarty-sot.js:531-536 | the display mirror keeps [0, 360) |
| Geometry.MirrorIsReflection | js/hegarty-sot.js:531-536 | on [0, 360) the mirror is `180 - a` modulo 360, is its own inverse, and fixes exactly 90 and 270 |
| Geometry.DisplayedLineIsRawBearing | js/hegarty-sot.js:531-536 | the red line's mirror undoes the correct angle's mirror: the line is drawn at the raw atan2 bearing modulo 360 |
| Geometry.AngularError | js/hegarty-sot.js:284-288 | for two angles in [0, 360) the error is in [0, 180] |
| Geometry.AngularErrorIsShortestArc | js/hegarty-sot.js:284-288 | for angles in [0, 360) the error equals the shortest arc between them, is symmetric, and is 0 exactly when they are equal |
| SotCatalog.FindPositionFirst | js/hegarty-sot.js:317-319 | `find` on positions yields nothing exactly when no entry has the id, and otherwise the first entry with it |
| SotCatalog.FindObjectFirst | js/hegarty-sot.js:555 | `find` on objects yields nothing exactly when no entry has the id, and otherwise the first entry with it |
| SotCatalog.GetObjectName | js/hegarty-sot.js:554-557 | the name of the object with that id, or the id itself when there is none |
| SotCatalog.ObjectIdsUnique | js/hegarty-sot.js:7-15 | no two objects share an id |
| SotCatalog.CalculateCorrectAngle | js/hegarty-sot.js:315-372 | 0 when an id has no position; NaN exactly when all three are found and standing and facing coincide; otherwise a number in [0, 360) |
| SotCatalog.PointingAtFacingIs180 | js/hegarty-sot.js:352-369 | pointing at the faced object gives cross product 0 and a positive dot product, hence exactly 180 |
| SotCatalog.FirstTrialExample | js/hegarty-sot.js:19 | standing at the bell, facing the tree and pointing to the drum gives 135 |
| SotCatalog.PositionTable | js/hegarty-sot.js:51-59 | `find` returns each object's listed position |
| SotCatalog.ObjectTable | js/hegarty-sot.js:7-15 | each positioned id is also an object id |
| SotCatalog.PositionsDistinct | js/hegarty-sot.js:51-59 | no two positions share an id or a point |
| SotCatalog.TestTrialsWellFormed | js/hegarty-sot.js:18-31 | every test trial names three distinct positioned objects, and trial k has id k + 1 |
| SotCatalog.FirstTestTrialsWellFormed | js/hegarty-sot.js:19-24 | test trials 1..6 are well formed |
| SotCatalog.LastTestTrialsWellFormed | js/hegarty-sot.js:25-30 | test trials 7..12 are well formed |
| SotCatalog.PracticeTrialsWellFormed | js/hegarty-sot.js:34-38 | every practice trial names three distinct positioned objects |
| SotCatalog.CatalogAngleIsNumber | js/hegarty-sot.js:338-340 | for catalog trials the facing length is never 0, so the correct angle is a number |
| SotSession.MeanToTenth | js/hegarty-sot.js:565-566 | the unguarded mean is NaN exactly for an empty list; otherwise the mean rounded to a tenth (a whole number of tenths within half a tenth of the mean) |
| SotSession.Summarize | js/hegarty-sot.js:565-568 | each of `finishTest`'s averages is NaN exactly when nothing is logged; otherwise the mean error and the mean time, each rounded to a tenth |
| SotSession.SummaryBounds | js/hegarty-sot.js:565-568 | with errors in [0, 180] and times in [0, T], the averages lie in [0, 180] and [0, T] |
| SotSession.SummaryExample | js/hegarty-sot.js:565-568 | errors 10 and 20 with times 2 and 4 average to 15.0 and 3.0 |
| SotSession.WithoutMembers | js/hegarty-sot.js:130 | after `removeEventListener` the listeners are exactly the old ones without that id |
| SotInvariant.InitialInv | js/hegarty-sot.js:41-48 | the page as loaded satisfies the invariant |
| SotInvariant.SpaceToPracticeOk | js/hegarty-sot.js:128-133 | Space on the practice instructions keeps the invariant |
| SotInvariant.PracticeEnterOk | js/hegarty-sot.js:173-188 | Enter on a practice trial keeps the invariant |
| SotInvariant.TestIntroEnterOk | js/hegarty-sot.js:203-208 | Enter on the test instructions keeps the invariant |
| SotInvariant.SubmitKeepsInv | js/hegarty-sot.js:273-309 | logging trial k's record when k records exist keeps the invariant |
| SotInvariant.TestEnterOk | js/hegarty-sot.js:273-311 | a test trial's Enter handler keeps the invariant |
| SotInvariant.FinishKeyOk | js/hegarty-sot.js:589-618 | the completion screen's key handler keeps the invariant |
| SotInvariant.RunHandlerPreservesInv | js/hegarty-sot.js:128-311 | every attached keydown handler keeps the invariant, never moves time, the log or the countdown backwards, and leaves the dial or resets it |
| SotInvariant.DispatchPreservesInv | js/hegarty-sot.js:273-311 | dispatching a keydown to any snapshot of listeners keeps the invariant |
| SotInvariant.LaterClockInv | js/hegarty-sot.js:278 | a later clock keeps the invariant |
| SotInvariant.KeyDownPreservesInv | js/hegarty-sot.js:128-311 | a keydown at a later time keeps the invariant and only moves the state forward |
| SotInvariant.BeginPreservesInv | js/hegarty-sot.js:113-134 | the start button keeps the invariant |
| SotInvariant.FinishTestOk | js/hegarty-sot.js:560-619 | `finishTest` keeps the invariant once the test has started |
| SotInvariant.PracticeDwellOk | js/hegarty-sot.js:184-186 | a practice dwell ending keeps the invariant |
| SotInvariant.TestDwellOk | js/hegarty-sot.js:306-309 | a test dwell ending keeps the invariant |
| SotInvariant.NextTrialKeepsInv | js/hegarty-sot.js:307 | moving the trial index on after a test dwell keeps the invariant |
| SotInvariant.ShowTestTrialOk | js/hegarty-sot.js:237-312 | `showTestTrial` keeps the invariant |
| SotInvariant.DwellDonePreservesInv | js/hegarty-sot.js:306-309 | any dwell ending keeps the invariant |
| SotInvariant.TickPreservesInv | js/hegarty-sot.js:227-234 | a countdown tick keeps the invariant |
| SotInvariant.DialKeepsInv | js/hegarty-sot.js:435-471 | moving the dial within [0, 360), or grabbing or releasing it, keeps the invariant |
| SotInvariant.PointerEventsPreserveInv | js/hegarty-sot.js:435-471 | mousedown, mousemove, mouseup and mouseleave keep the invariant |
| SotProperties.LogFollowsCatalog | js/hegarty-sot.js:290-299 | for any log the invariant accepts, record k is test trial k + 1, with its objects, a correct angle in [0, 360) and its shortest-arc error in [0, 180]; ids are distinct; times never decrease; the averages are bounded |
| SotProperties.CompletedTestLogsEveryTrial | js/hegarty-sot.js:237-241 | once the trial index passes the last trial, all twelve trials are logged in catalog order |
| SotProperties.CountdownReachesZero | js/hegarty-sot.js:227-234 | each tick takes one second off; the countdown stays active while seconds remain; `finishTest` runs once, on the tick that reaches 0, and the log is untouched |
| SotProperties.StoppedCountdownStays | js/hegarty-sot.js:231 | a cleared countdown never ticks again |
| SotProperties.HandlerKeepsLog | js/hegarty-sot.js:128-311 | a handler other than a test trial's Enter leaves the log and the trial index alone |
| SotProperties.DispatchKeepsLog | js/hegarty-sot.js:128-311 | a keydown no attached handler submits with leaves the log and the trial index alone |
| SotProperties.DispatchLogsSubmission | js/hegarty-sot.js:273-309 | Enter with trial t's handler attached appends exactly t's record, and finishes nothing |
| SotProperties.SubmissionFirst | js/hegarty-sot.js:273-309 | once the submitting handler has run, later listeners log nothing |
| SotProperties.SubmitEffect | js/hegarty-sot.js:278-309 | the Enter handler appends the record taken at that moment and schedules a dwell only on a trial screen |
| SotProperties.OtherHandlerKeepsSubmission | js/hegarty-sot.js:589-618 | a completion handler running first changes nothing the record depends on |
| SotProperties.EnterLogsAttachedTrial | js/hegarty-sot.js:273-299 | Enter logs the attached trial's record, with the dial angle and the seconds since the start at the moment of the key |
| SotProperties.KeyDownLogsAtMostOne | js/hegarty-sot.js:273-299 | a keydown keeps the log as a prefix and adds at most one record: none for Space, and one for Enter exactly when a test trial's handler is attached |
| SotProperties.TimeoutMidTrial | js/hegarty-sot.js:227-234 | a timeout during trial k completes the test with k records and leaves trial k's Enter handler attached |
| SotProperties.StaleSubmitAfterTimeout | js/hegarty-sot.js:273-303 | Enter on a page without a canvas still logs the attached trial's record, adds no averages, and schedules no dwell |
| SotProperties.LastDwellFinishesOnce | js/hegarty-sot.js:238-241 | the last dwell ending before the timeout finishes the test once, and later ticks do nothing |
| SotProperties.TimeoutDuringLastDwellFinishesTwice | js/hegarty-sot.js:306-309 | a timeout during the last dwell and then the dwell run `finishTest` twice over the same twelve records |
| SotProperties.TimeoutDuringDwellShowsNextTrial | js/hegarty-sot.js:306-309 | a timeout during an earlier dwell is followed by the next trial on screen, with its Enter handler, under a stopped countdown |
| SotProperties.PracticeDwellAdvances | js/hegarty-sot.js:137-189 | the dwell after a practice trial starts the next practice trial with the dial at 0 and only its Enter handler attached, or after the third trial the test instructions with only their handler |
| SotProperties.TestDwellAdvances | js/hegarty-sot.js:306-309 | the dwell after test trial k shows trial k + 1 with the dial at 0, not grabbed, and its Enter handler the only test handler attached, keeping the k + 1 records; after the last trial it finishes the test |
| SotProperties.DispatchSkipsDetached | js/hegarty-sot.js:130 | listeners removed before their turn do not run |
| SotProperties.EnterStartsTest | js/hegarty-sot.js:212-224 | Enter on the test instructions starts trial 0 at that moment with an empty log and a fresh 300 s countdown |
| SotProperties.StartTestEffect | js/hegarty-sot.js:203-208 | the test instructions' handler is the only one attached and starts the test |
| SotProperties.PointerCapture | js/hegarty-sot.js:435-471 | mousedown points the line at the pointer's bearing and grabs it; mousemove moves it only while grabbed; mouseup and mouseleave release it; nothing else changes |
| SotPage.DispatchUnfold | js/hegarty-sot.js:130 | one turn of a dispatch runs the listener only if it is still attached |
| SotPage.Session.constructor | js/hegarty-sot.js:41-48 | the page's globals start as loaded, and the invariant holds |
| SotPage.Session.AddKeyListener | js/hegarty-sot.js:128 | `addEventListener` appends a listener with a fresh id |
| SotPage.Session.RemoveKeyListener | js/hegarty-sot.js:130 | `removeEventListener` drops the listener with that id |
| SotPage.Session.SetupCanvas | js/hegarty-sot.js:431-435 | a new canvas puts the line at 0, not grabbed |
| SotPage.Session.ShowTestIntro | js/hegarty-sot.js:192-209 | the test instructions, with their Enter handler |
| SotPage.Session.StartPractice | js/hegarty-sot.js:137-189 | practice trial `index` with its handler, or the test instructions after the last |
| SotPage.Session.Finish | js/hegarty-sot.js:560-619 | `finishTest`: countdown cleared, averages of the current log shown, key handler attached |
| SotPage.Session.ShowTrial | js/hegarty-sot.js:237-312 | `showTestTrial`: the current trial with its Enter handler, or `finishTest` past the last |
| SotPage.Session.Start | js/hegarty-sot.js:212-224 | `startTest`: trial index 0, empty log, start time now, countdown 300 and active, first trial shown |
| SotPage.Session.Submit | js/hegarty-sot.js:278-309 | the Enter handler's record pushed onto the log, and a dwell scheduled when the canvas is present |
| SotPage.Session.Handle | js/hegarty-sot.js:128-311 | running one keydown handler updates the fields as its step function says |
| SotPage.Session.KeyDown | js/hegarty-sot.js:128-311 | a keydown updates the fields as the keydown step function says and keeps the invariant |
| SotPage.Session.DispatchKey | js/hegarty-sot.js:128-311 | the dispatch loop runs each still-attached listener of the snapshot, as the dispatch function says, and keeps the invariant |
| SotPage.Session.Begin | js/hegarty-sot.js:113 | the start button shows the practice instructions, and the invariant holds |
| SotPage.Session.DwellDone | js/hegarty-sot.js:306-309 | a dwell ending updates the fields as its step function says, and the invariant holds |
| SotPage.Session.NextPracticeTrial | js/hegarty-sot.js:184-186 | a practice dwell starts the next practice trial |
| SotPage.Session.NextTestTrial | js/hegarty-sot.js:306-309 | a test dwell moves the trial index on and shows the next trial |
| SotPage.Session.Tick | js/hegarty-sot.js:227-234 | a tick updates the fields as its step function says, and the invariant holds |
| SotPage.Session.UpdateTimer | js/hegarty-sot.js:227-234 | `updateTimer`: one second less, and `finishTest` at 0 |
| SotPage.Session.MouseDown | js/hegarty-sot.js:437-440 | mousedown grabs the line and points it, and the invariant holds |
| SotPage.Session.MouseMove | js/hegarty-sot.js:442-446 | mousemove points the line while it is grabbed, and the invariant holds |
| SotPage.Session.MouseRelease | js/hegarty-sot.js:448-454 | mouseup and mouseleave release the line, and the invariant holds |
| OrientationTest.StimuliCatalog | js/orientation-test.js:7-38 | the five ids run 1..5, and every correct angle is in [0, 360) and a multiple of 5 |
| OrientationTest.StepLeft | js/orientation-test.js:206-208 | ArrowLeft on an angle in [0, 360) gives `a - 5` modulo 360 |
| OrientationTest.StepRight | js/orientation-test.js:210-211 | ArrowRight on a non-negative angle gives `a + 5` modulo 360 |
| OrientationTest.StepsStayOnGrid | js/orientation-test.js:206-213 | both steps keep the dial in [0, 360) on multiples of 5, and each undoes the other |
| OrientationTest.RightPressesFromZero | js/orientation-test.js:210-211 | from 0, n presses of ArrowRight show 5n modulo 360 |
| OrientationTest.GridReachableFromZero | js/orientation-test.js:206-213 | every multiple of 5 in [0, 360), and so every correct angle, is reached from 0 by ArrowRight alone |
| OrientationTest.StepExamples | js/orientation-test.js:206-213 | five ArrowRights from 0 show 25, and one ArrowLeft from 0 shows 355 |
| OrientationTest.ResponseDial.constructor | js/orientation-test.js:272 | the shared dial starts at 0 |
| OrientationTest.ResponseDial.Reset | js/orientation-test.js:202-204 | drawing or loading a trial puts the dial at 0 |
| OrientationTest.ResponseDial.KeyPress | js/orientation-test.js:205-214 | the arrows step the dial and other keys leave it; the dial stays on its grid |
| OrientationTest.ResponseDial.Finish | js/orientation-test.js:215-236 | the trial record holds the dial, the scene's angle, id and objects, `rt / 1000`, and the shortest-arc error, which is in [0, 180] and 0 exactly on a hit |
| OrientationTest.PreloadImages | js/orientation-test.js:41-46 | the two instruction images, then every scene's image in catalog order |
| OrientationTest.BuildTimeline | js/orientation-test.js:418-432 | preload, the three instruction pages, one trial per stimulus in order, then the completion page: `stimuli.length + 3` entries |
| OrientationTest.CompletionSummary | js/orientation-test.js:365-373 | no averages exactly when there are no trials; otherwise the mean error to the nearest integer and the mean time rounded to a tenth (a whole number of tenths within half a tenth of the mean) |
| OrientationTest.CompletionBounds | js/orientation-test.js:371-373 | for scored trials the average error is in [0, 180] and the average time between 0 and the longest time |
| QualtricsScores.CalculateAverageAngularError | js/qualtrics-integration.js:46-51 | 0 for null or empty data; otherwise the integer nearest the mean error, a missing error counting as 0 |
| QualtricsScores.CalculateAverageResponseTime | js/qualtrics-integration.js:54-59 | 0 for null or empty data; otherwise the mean time rounded to a tenth (a whole number of tenths within half a tenth of the mean, a missing time read as 0) |
| QualtricsScores.CalculateAccuracyScore | js/qualtrics-integration.js:62-73 | always an integer in [0, 100]; 0 for null or empty data |
| QualtricsScores.AverageErrorBounds | js/qualtrics-integration.js:49-50 | errors in [0, 180] give an average error in [0, 180] |
| QualtricsScores.AverageTimeBounds | js/qualtrics-integration.js:57-58 | times in [0, T] give an average time in [0, T] |
| QualtricsScores.SumOfShares | js/qualtrics-integration.js:67 | the summed error shares are the summed errors over 180 |
| QualtricsScores.MeanShare | js/qualtrics-integration.js:67 | the error percentage is the mean error over 180 |
| QualtricsScores.AccuracyFromMeanError | js/qualtrics-integration.js:65-72 | for errors in [0, 180] the clamp never engages: the score is `100 · (1 - mean / 180)` rounded |
| QualtricsScores.AccuracyAllCorrect | js/qualtrics-integration.js:65-72 | data whose every error is 0 scores 100 |
| QualtricsScores.AccuracyAllOpposite | js/qualtrics-integration.js:65-72 | data whose every error is 180 scores 0 |
| QualtricsScores.AccuracyFallsAsErrorRises | js/qualtrics-integration.js:67-72 | of two equally long datasets, the one with the larger total error never scores higher |
| QualtricsScores.MissingErrorCountsAsZero | js/qualtrics-integration.js:49 | a record without an error scores as one with error 0 |
| QualtricsScores.SurveyMatchesCompletionPage | js/qualtrics-integration.js:46-59 | on the dial test's records the survey receives the same average error and average time as the completion page shows |

## Left out

- DOM and canvas rendering is not modelled, because it is pixel output. This covers the `innerHTML` screens, `placeObjectsInScene`, the strokes of
  `setupResponseCanvas`, `drawResponseLine`, `showCorrectAnswer`, `drawPointer` and `redrawPointer`, and the
  instruction and completion HTML. Screens are tags. The instructions entry of the timeline
  records only its page count.
- The object and stimulus names scraped back from rendered text (`js/hegarty-sot.js:504-505`) are not modelled, because they
  depend on the DOM.
- Image preloading is not modelled, because it is asynchronous image loading. This covers `preloadImages` and `objectImages`; the session starts on the
  welcome screen with everything loaded. For the dial test only the list of images to fetch is modelled.
- jsPsych is not modelled, because it is a foreign library. Its plugin objects are timeline tags, `data.rt` is the argument of
  `ResponseDial.Finish`, and `jsPsych.data` filtering and `.json()`/`JSON.parse` are taken as the
  plain sequence of trial records.
- `Math.atan2`, `Math.sqrt` and the radians conversions are floating-point trigonometry. They are replaced by the
  constrained `atan2` parameter, and arithmetic is exact `real`. Float rounding, for example of `rt / 1000`, is not modelled.
- Host timers are not modelled. `setTimeout`/`setInterval` are events, and `Date.now()` is an argument that never decreases.
- Survey-host I/O is not modelled, because it consists of host side effects. This covers both `sendDataToQualtrics` (`js/hegarty-sot.js:622`,
  `js/qualtrics-integration.js:8`), both `notifyQualtricsOfCompletion`, `postMessage`,
  `embedInQualtrics` and the console output. The perspective-taking test counts hand-overs on
  the completion screen; the dial test's two hand-overs (`js/orientation-test.js:393-398` and `js/orientation-test.js:408-412`) are not modelled.
- Keys other than Space and Enter, and on the dial test other than the arrows and Enter, reach no
  handler. They are therefore not events of the perspective-taking model.
- `console.error` on a missing object id is not modelled; only the returned 0 is.
- QualtricsScores.CalculateAverageAngularError: fields holding strings or booleans are not modelled. A field is a number, NaN, null or missing, which are the values the test writes.
- OrientationTest.ResponseDial.KeyPress: models the body of the trial's `on_key_press` as if it ran on every arrow press, with `Finish` running on Enter. jsPsych's canvas keyboard response ends a trial on the first key listed in `choices` (`js/orientation-test.js:193`), and that ending is not modelled, because jsPsych is a foreign library.
- SotProperties.LogFollowsCatalog: bounds the average time by the whole seconds elapsed plus one, rather than by the exact elapsed time.
