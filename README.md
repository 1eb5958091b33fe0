# MinDora front end: a verified model of its client-side logic

MinDora is an Angular wellness application. Most of it is screens and HTTP
plumbing. This project models, in Dafny, the parts of it that hold state or
compute something that can be stated exactly:

- **Three guided-exercise timers.**
  - The 4-4-4-4 box-breathing session of the coaching page (`BoxBreathing`).
  - The pattern-and-cycle breathing modal (`BreathingExercises`).
  - The step-list wellness-tip modal with its checklist (`WellnessTip`).
- **The 15-question stress questionnaire.** Its wizard and its scoring are in `StressAssessment`.
- **The assessment history service** (`AssessmentHistory`) and the tracking page's rules (`AssessmentTracking`).
- **Lists the browser keeps in local storage.**
  - Appointments: the service (`Appointments`) and the coaching page's booking, conflict check, reschedule and cancel (`Coaching`).
  - Challenges, groups, saved resources and stress triggers (`Coaching`).
  - Daily routine progress (`Routines`) and reminders (`Reminders`).
  - The user table: `Auth` covers register, login and logout; `ProfileSettings` covers profile update, password change and account deletion.
- **Pure mappings.**
  - The conversion of a questionnaire result to the backend's assessment record, and the HTTP-error messages (`AssessmentsConversion`).
  - The reports page's filter, sort, statistics, type lookup and form errors (`Reports`).
  - The video-call dialog's `MM:SS` duration, its toggles and its timer discipline (`VideoCall`).

Conventions used throughout:

- **Storage.** Each storage key is a `Cell<T>` (`Common`): absent, present but unparsable, or holding a value. Saving then loading gives the value back; `JSON.parse` failing is the `Unparsable` case.
- **Timers.** An interval is a handle in the set `live` of intervals the browser would still run. `Tick()` is one second of the browser clock, and runs the callback exactly when the component's handle is live. Delayed `setTimeout` bodies run at once, with two exceptions. The profile page's 3-second message clear is counted as pending until `ClearTimeoutFires` runs it. The video call's 2-second connection is the method `Connect`, which may run after the call has ended.
- **Inputs from outside.** The clock, generated ids, `confirm` answers and the browser's email validator are method parameters.

Each class's methods are proved against pure specification functions (one tick, one list update), and the lemmas next to those functions state what the source promises over many steps.

## Model

| member | source | states |
|---|---|---|
| BoxBreathing.Restore | src/app/coaching/coaching.ts:231-248 | Whatever the state key holds, the shown session is neither running nor completed |
| BoxBreathing.RestoreRoundTrip | src/app/coaching/coaching.ts:231-248 | Reopening after a saved snapshot restores the saved phase, phase countdown and total countdown, stopped and not completed |
| BoxBreathing.RestoreFallback | src/app/coaching/coaching.ts:231-248 | A missing or unparsable snapshot gives the reset state: inhale, 4 seconds, 120 seconds |
| BoxBreathing.TickBody | src/app/coaching/coaching.ts:280-311 | One tick lowers the total by one. It lowers the phase countdown by one, or at its end moves to the next phase of inhale, hold, exhale, hold and reloads 4. With nothing left it completes |
| BoxBreathing.RunKeepsInRange | src/app/coaching/coaching.ts:280-311 | After any number of ticks the phase countdown stays within 1..4 |
| BoxBreathing.Countdown | src/app/coaching/coaching.ts:280-299 | A running session completes exactly when `totalLeft` ticks have passed, and is stopped from then on; until then the total falls by one per tick |
| BoxBreathing.ResetCompletesAfter120 | src/app/coaching/coaching.ts:220-221 | From the reset state exactly 120 ticks set `completed` |
| BoxBreathing.ResetSchedule | src/app/coaching/coaching.ts:280-311 | After k < 120 ticks from the reset state the phase is number (k / 4) mod 4 with 4 - k mod 4 seconds left |
| BoxBreathing.ProgressBounds | src/app/coaching/coaching.ts:334-336 | Progress is 0 exactly at the start, 100 exactly at the end, and in 0..100 between |
| BoxBreathing.ProgressMonotone | src/app/coaching/coaching.ts:334-336 | Progress never falls as the total counts down |
| BoxBreathing.BreathProgress | src/app/coaching/coaching.ts:334-336 | In 0..100 for every count in 0..120; the rounded share of the 120 seconds used, except 57 at 51 seconds left, as the double arithmetic gives |
| BoxBreathing.DoubleRoundingAt51 | src/app/coaching/coaching.ts:334-336 | At 51 seconds left the page shows 57 while the exact share rounds to 58 |
| BoxBreathing.BreathingSession.constructor | src/app/coaching/coaching.ts:224-229 | The session starts in the reset state with no interval live |
| BoxBreathing.BreathingSession.SaveBreathState | src/app/coaching/coaching.ts:313-320 | The state key holds the snapshot of phase, phase countdown and total countdown |
| BoxBreathing.BreathingSession.PauseBreathing | src/app/coaching/coaching.ts:262-269 | Not running, no interval live, and the position saved |
| BoxBreathing.BreathingSession.ResetBreathing | src/app/coaching/coaching.ts:271-278 | Reset state, no interval live, and the state key removed |
| BoxBreathing.BreathingSession.CloseBreathing | src/app/coaching/coaching.ts:250-253 | Hidden, not running, no interval live, and the current position saved under the state key |
| BoxBreathing.BreathingSession.StartBreathing | src/app/coaching/coaching.ts:255-260 | When completed or already running nothing changes; otherwise exactly one new interval is live, so at most one is ever live |
| BoxBreathing.BreathingSession.AdvanceBreathPhase | src/app/coaching/coaching.ts:301-311 | The next phase of the fixed order, with 4 seconds |
| BoxBreathing.BreathingSession.CompleteBreathing | src/app/coaching/coaching.ts:322-332 | Stopped and completed, exactly one 120-second 'box-4-4-4-4' entry appended to the log, and the state key removed |
| BoxBreathing.BreathingSession.TickBreathing | src/app/coaching/coaching.ts:280-299 | The fields move exactly as `TickBody` says; the snapshot is saved while the session goes on, and the log grows on completion |
| BoxBreathing.BreathingSession.Tick | src/app/coaching/coaching.ts:259 | A second of the clock runs the callback only when the interval is live; otherwise nothing changes |
| BoxBreathing.BreathingSession.OpenBreathing | src/app/coaching/coaching.ts:231-248 | Corrected: the dialog shows the restored session and no interval stays live |
| BoxBreathing.BreathingSession.OpenBreathingAsWritten | src/app/coaching/coaching.ts:231-248 | As written: the session shows as stopped but the old interval stays live |
| BoxBreathing.ReopenWhileRunningAsWritten | src/app/coaching/coaching.ts:231-260 | Start, one second, reopen, start: two intervals are live with the code as written |
| BoxBreathing.ReopenWhileRunning | src/app/coaching/coaching.ts:231-260 | The same sequence with the corrected open leaves one interval live |
| Appointments.CancelIn | src/app/coaching/appointments.service.ts:28-32 | Every appointment with the id becomes cancelled; the length and all others are unchanged |
| Appointments.RescheduleIn | src/app/coaching/appointments.service.ts:34-38 | Matching appointments get the new date and time and become upcoming; the others are unchanged |
| Appointments.CancelIdempotent | src/app/coaching/appointments.service.ts:28-32 | Cancelling twice is cancelling once |
| Appointments.RescheduleIdempotent | src/app/coaching/appointments.service.ts:34-38 | Rescheduling twice to the same slot is rescheduling once |
| Appointments.AppointmentsService.constructor | src/app/coaching/appointments.service.ts:16 | The service reads the given key |
| Appointments.AppointmentsService.Load | src/app/coaching/appointments.service.ts:18-22 | The stored list, or [] when the key is absent or unparsable |
| Appointments.AppointmentsService.Save | src/app/coaching/appointments.service.ts:24-26 | The key holds the list |
| Appointments.AppointmentsService.Cancel | src/app/coaching/appointments.service.ts:28-32 | Returns the cancelled list and persists exactly that list |
| Appointments.AppointmentsService.Reschedule | src/app/coaching/appointments.service.ts:34-38 | Returns the rescheduled list and persists exactly that list |
| Appointments.SaveThenLoad | src/app/coaching/appointments.service.ts:18-26 | Loading after saving a list gives that list back |
| Appointments.LoadUnparsable | src/app/coaching/appointments.service.ts:18-22 | Loading unparsable content gives [] |
| Coaching.HasConflictMeaning | src/app/coaching/coaching.ts:661-668 | With space-free dates, a conflict exists iff some appointment that is not cancelled and not the ignored one has the same date and the same time |
| Coaching.HasConflict | src/app/coaching/coaching.ts:661-668 | Some appointment other than the ignored one, not cancelled, has the same `date time` text |
| Coaching.BookingKeepsNoDoubleBooking | src/app/coaching/coaching.ts:670-696 | Appending a booking that passed the conflict check keeps the list free of double bookings |
| Coaching.MoveIn | src/app/coaching/coaching.ts:145-165 | The page's reschedule moves only matching appointments and keeps every status |
| Coaching.RescheduleKeepsNoDoubleBooking | src/app/coaching/coaching.ts:145-165 | A reschedule that passed the conflict check keeps the list free of double bookings |
| Coaching.CancelKeepsNoDoubleBooking | src/app/coaching/coaching.ts:177-188 | Cancelling never creates a double booking |
| Coaching.JoinChallengeIn | src/app/coaching/coaching.ts:603-606 | Only challenges with the id become joined |
| Coaching.IncrementIn | src/app/coaching/coaching.ts:608-615 | The matching challenge gains one step but never passes its target; others are unchanged |
| Coaching.ResetChallengeIn | src/app/coaching/coaching.ts:617-624 | The matching challenge goes back to 0 and not joined |
| Coaching.ChallengeActionsKeepRange | src/app/coaching/coaching.ts:603-624 | Join, increment and reset keep every progress within 0..target |
| Coaching.IncrementSaturates | src/app/coaching/coaching.ts:608-615 | After k increments a challenge stands at min(target, progress + k) |
| Coaching.JoinGroupIn | src/app/coaching/coaching.ts:626-631 | The matching group gains one member and becomes joined |
| Coaching.LeaveGroupIn | src/app/coaching/coaching.ts:633-638 | The matching group loses one member but never goes below 0 |
| Coaching.GroupActionsKeepNonNegative | src/app/coaching/coaching.ts:626-638 | Joining and leaving keep every member count at 0 or above |
| Coaching.JoinThenLeave | src/app/coaching/coaching.ts:626-638 | Joining then leaving restores the member counts and leaves the group unjoined |
| Coaching.ToggleSaved | src/app/coaching/coaching.ts:105-111 | The saved list has no duplicates and holds the id exactly when it did not before |
| Coaching.ToggleSavedTwice | src/app/coaching/coaching.ts:105-111 | Toggling twice restores the saved set, and the list itself when it was duplicate-free without the id |
| Coaching.FilteredResources | src/app/coaching/coaching.ts:715-726 | 'all' lists everything, 'saved' exactly the saved ones, a category exactly that category |
| Coaching.FilteredPsychologists | src/app/coaching/coaching.ts:833-848 | Exactly the psychologists matching the specialty filter and the search, with lower-casing over ASCII and Latin-1 letters |
| Coaching.MatchesPsychologist | src/app/coaching/coaching.ts:836-845 | A psychologist matches when the filter is 'all' or some specialty contains it, and the search is empty or found in the name or the specialty, all lower-cased |
| Coaching.UnfilteredPsychologists | src/app/coaching/coaching.ts:833-848 | With 'all' and an empty search every psychologist is listed |
| Coaching.CoachingPage.constructor | src/app/coaching/coaching.ts:93-126 | The page starts with the demo lists and empty saved resources and triggers |
| Coaching.CoachingPage.Init | src/app/coaching/coaching.ts:457-483 | Parsable stored lists replace the demo ones; with no stored appointments the demo ones are saved |
| Coaching.CoachingPage.OpenBooking | src/app/coaching/coaching.ts:641-647 | The booking form opens empty for the chosen psychologist |
| Coaching.CoachingPage.ConfirmBooking | src/app/coaching/coaching.ts:670-696 | A missing field or a taken slot sets an error and keeps the list; otherwise exactly one upcoming video call is appended and saved |
| Coaching.CoachingPage.OpenReschedule | src/app/coaching/coaching.ts:132-138 | The reschedule form opens with the appointment's own date and time |
| Coaching.CoachingPage.ConfirmReschedule | src/app/coaching/coaching.ts:145-165 | A missing field or a conflict sets an error and keeps the list. Otherwise only appointments with the edited id move, the length, other entries and statuses are unchanged, and the list is saved |
| Coaching.CoachingPage.OpenCancel | src/app/coaching/coaching.ts:167-170 | The cancel dialog opens for the appointment |
| Coaching.CoachingPage.ConfirmCancel | src/app/coaching/coaching.ts:177-188 | Only appointments with the edited id become cancelled, and the list is saved |
| Coaching.CoachingPage.JoinChallenge | src/app/coaching/coaching.ts:603-606 | The list becomes `JoinChallengeIn` of the old one and is saved |
| Coaching.CoachingPage.IncrementChallenge | src/app/coaching/coaching.ts:608-615 | The list becomes `IncrementIn` of the old one and is saved |
| Coaching.CoachingPage.ResetChallenge | src/app/coaching/coaching.ts:617-624 | The list becomes `ResetChallengeIn` of the old one and is saved |
| Coaching.CoachingPage.JoinGroup | src/app/coaching/coaching.ts:626-631 | The list becomes `JoinGroupIn` of the old one and is saved |
| Coaching.CoachingPage.LeaveGroup | src/app/coaching/coaching.ts:633-638 | The list becomes `LeaveGroupIn` of the old one and is saved |
| Coaching.CoachingPage.ToggleResourceSaved | src/app/coaching/coaching.ts:105-111 | The saved list is toggled and persisted |
| Coaching.CoachingPage.ToggleTriggerTag | src/app/coaching/coaching.ts:359-364 | The tag is removed when selected and added otherwise |
| Coaching.CoachingPage.AddTrigger | src/app/coaching/coaching.ts:366-381 | A text that is blank after trimming ECMAScript white space changes nothing; otherwise the trimmed text with the tags goes first, is saved, and the form clears |
| Coaching.CoachingPage.RemoveTrigger | src/app/coaching/coaching.ts:383-386 | Every trigger with the id goes, the others stay in order, and the list is saved |
| BreathingExercises.NextOf | src/app/home/modals/breathing-exercises-modal/breathing-exercises-modal.component.ts:211-242 | The phase order is inhale, hold1, exhale, hold2 and back to inhale |
| BreathingExercises.CatalogTotals | src/app/home/modals/breathing-exercises-modal/breathing-exercises-modal.component.ts:28-85 | The four catalog exercises last 80, 76, 40 and 84 seconds |
| BreathingExercises.TotalSeconds | src/app/home/modals/breathing-exercises-modal/breathing-exercises-modal.component.ts:109-114 | For a four-phase exercise, the sum of the four phase lengths times the number of cycles |
| BreathingExercises.PhaseElapsed | src/app/home/modals/breathing-exercises-modal/breathing-exercises-modal.component.ts:278-293 | While the countdown is within the current phase, the elapsed part is within 0 and the phase length |
| BreathingExercises.ElapsedSeconds | src/app/home/modals/breathing-exercises-modal/breathing-exercises-modal.component.ts:116-121 | While the countdown is within the current phase, the figure lies between the completed-cycles part (cycle number times cycle length) and that plus the phase length |
| BreathingExercises.MoveNext | src/app/home/modals/breathing-exercises-modal/breathing-exercises-modal.component.ts:211-254 | After a move the exercise has completed, or the countdown is non-zero (positive when no phase length is negative) and equals the new phase's length. Either the phase moved forward within the cycle, or the cycle rose by one and the phase wrapped round |
| BreathingExercises.MoveNextAccounting | src/app/home/modals/breathing-exercises-modal/breathing-exercises-modal.component.ts:211-254 | A move completes exactly when no second is left after the current phase; otherwise the new phase plus what follows it is what was left |
| BreathingExercises.TickSpec | src/app/home/modals/breathing-exercises-modal/breathing-exercises-modal.component.ts:187-209 | One tick counts down by one, or moves to the next phase when the countdown ends, or completes |
| BreathingExercises.TickAccounting | src/app/home/modals/breathing-exercises-modal/breathing-exercises-modal.component.ts:187-254 | One tick uses up exactly one remaining second and completes when the last one goes |
| BreathingExercises.TicksToFinish | src/app/home/modals/breathing-exercises-modal/breathing-exercises-modal.component.ts:187-254 | A running position completes after exactly its remaining seconds, and not before |
| BreathingExercises.ExactTicksFromStart | src/app/home/modals/breathing-exercises-modal/breathing-exercises-modal.component.ts:109-114 | With a positive first phase, a run from `start` lasts exactly `totalSeconds` ticks |
| BreathingExercises.RunFirstStep | src/app/home/modals/breathing-exercises-modal/breathing-exercises-modal.component.ts:187-209 | k + 1 seconds are one tick followed by k |
| BreathingExercises.ZeroFirstPhaseCostsOneTick | src/app/home/modals/breathing-exercises-modal/breathing-exercises-modal.component.ts:144-158 | A zero-length first phase costs one extra tick at `start`: the run lasts `totalSeconds` + 1 ticks |
| BreathingExercises.ElapsedFormula | src/app/home/modals/breathing-exercises-modal/breathing-exercises-modal.component.ts:116-121 | The elapsed figure equals the seconds that really ran plus the length of the current phase and of the phases after it in the cycle, because the 1-based cycle number counts as cycles already done |
| BreathingExercises.ElapsedAtStart | src/app/home/modals/breathing-exercises-modal/breathing-exercises-modal.component.ts:116-121 | Straight after `start` the elapsed figure already shows a whole cycle |
| BreathingExercises.BreathingExercisesModal.constructor | src/app/home/modals/breathing-exercises-modal/breathing-exercises-modal.component.ts:88-98 | Nothing selected, stopped, scale 1, no interval |
| BreathingExercises.BreathingExercisesModal.Stop | src/app/home/modals/breathing-exercises-modal/breathing-exercises-modal.component.ts:173-185 | Cycle 0, inhale, 0 seconds, scale 1, not running, not paused, no interval |
| BreathingExercises.BreathingExercisesModal.SelectExercise | src/app/home/modals/breathing-exercises-modal/breathing-exercises-modal.component.ts:139-142 | Stopped, then the exercise is selected |
| BreathingExercises.BreathingExercisesModal.BackToList | src/app/home/modals/breathing-exercises-modal/breathing-exercises-modal.component.ts:305-308 | Stopped, then nothing is selected |
| BreathingExercises.BreathingExercisesModal.CloseModal | src/app/home/modals/breathing-exercises-modal/breathing-exercises-modal.component.ts:300-303 | Stopped, and close is emitted once |
| BreathingExercises.BreathingExercisesModal.RunTimer | src/app/home/modals/breathing-exercises-modal/breathing-exercises-modal.component.ts:187-192 | The old interval is cleared and exactly one new one is live |
| BreathingExercises.BreathingExercisesModal.Start | src/app/home/modals/breathing-exercises-modal/breathing-exercises-modal.component.ts:144-158 | Without a selection nothing changes; otherwise it runs unpaused, cycle 0 becomes cycle 1 at inhale with the first phase's seconds, a paused position is kept, and one interval is live |
| BreathingExercises.BreathingExercisesModal.Pause | src/app/home/modals/breathing-exercises-modal/breathing-exercises-modal.component.ts:160-166 | Paused with no interval; phase, cycle and countdown kept |
| BreathingExercises.BreathingExercisesModal.Resume | src/app/home/modals/breathing-exercises-modal/breathing-exercises-modal.component.ts:168-171 | Unpaused with one fresh interval; position kept |
| BreathingExercises.BreathingExercisesModal.SaveLog | src/app/home/modals/breathing-exercises-modal/breathing-exercises-modal.component.ts:264-276 | Exactly one entry with the exercise id and cycles is appended |
| BreathingExercises.BreathingExercisesModal.CompleteExercise | src/app/home/modals/breathing-exercises-modal/breathing-exercises-modal.component.ts:256-262 | Stopped, and exactly one log entry appended |
| BreathingExercises.BreathingExercisesModal.MoveToNextPhase | src/app/home/modals/breathing-exercises-modal/breathing-exercises-modal.component.ts:211-254 | The fields move as `MoveNext` says: completed and logged, or on a phase with a positive countdown |
| BreathingExercises.BreathingExercisesModal.Tick | src/app/home/modals/breathing-exercises-modal/breathing-exercises-modal.component.ts:187-209 | With no live interval nothing changes; otherwise the fields move as `TickSpec` says |
| BreathingExercises.BreathingExercisesModal.AnimationEffect | src/app/home/modals/breathing-exercises-modal/breathing-exercises-modal.component.ts:124-137 | While running, inhale scales the circle to 1.5 and exhale to 0.7; otherwise the scale is kept |
| WellnessTip.NextStepSpec | src/app/home/modals/wellness-tip-modal/wellness-tip-modal.component.ts:200-220 | The current step is marked completed. The last step stops the exercise at step 0 with 0 seconds. Any other step advances the index by one and loads the next step's duration when it is positive, keeping the countdown otherwise |
| WellnessTip.Run | src/app/home/modals/wellness-tip-modal/wellness-tip-modal.component.ts:242-258 | The step index never goes negative over any number of ticks |
| WellnessTip.TickAccounting | src/app/home/modals/wellness-tip-modal/wellness-tip-modal.component.ts:242-258 | One tick of a timed tip uses up exactly one remaining second |
| WellnessTip.TicksToFinish | src/app/home/modals/wellness-tip-modal/wellness-tip-modal.component.ts:200-258 | A running position finishes after exactly its remaining seconds |
| WellnessTip.ExactTicksFromStart | src/app/home/modals/wellness-tip-modal/wellness-tip-modal.component.ts:160-174 | A tip whose steps all last a positive time runs exactly the sum of its step durations, then stops with every step completed |
| WellnessTip.DeclaredDurationUnused | src/app/home/modals/wellness-tip-modal/wellness-tip-modal.component.ts:39-55 | The breathing tip declares 60 seconds but its steps, which are what runs, last 12 |
| WellnessTip.ToggleItem | src/app/home/modals/wellness-tip-modal/wellness-tip-modal.component.ts:222-236 | Exactly the one index flips membership |
| WellnessTip.ToggleItemTwice | src/app/home/modals/wellness-tip-modal/wellness-tip-modal.component.ts:222-236 | Toggling the same item twice restores the completed set |
| WellnessTip.WellnessTipModal.constructor | src/app/home/modals/wellness-tip-modal/wellness-tip-modal.component.ts:129-136 | Nothing selected, not exercising, no interval |
| WellnessTip.WellnessTipModal.SelectTip | src/app/home/modals/wellness-tip-modal/wellness-tip-modal.component.ts:153-158 | The tip is selected at step 0 with nothing completed; the interval, pause flag and countdown are left as they were |
| WellnessTip.WellnessTipModal.RunTimer | src/app/home/modals/wellness-tip-modal/wellness-tip-modal.component.ts:242-247 | The old interval is cleared and exactly one new one is live |
| WellnessTip.WellnessTipModal.StartExercise | src/app/home/modals/wellness-tip-modal/wellness-tip-modal.component.ts:160-174 | Step 0, nothing completed, and a timer only when the first step has a positive duration |
| WellnessTip.WellnessTipModal.Pause | src/app/home/modals/wellness-tip-modal/wellness-tip-modal.component.ts:176-182 | Paused with no interval; step and countdown kept |
| WellnessTip.WellnessTipModal.Resume | src/app/home/modals/wellness-tip-modal/wellness-tip-modal.component.ts:184-187 | Unpaused with one fresh interval, whether or not a tip is selected; step and countdown kept |
| WellnessTip.WellnessTipModal.Stop | src/app/home/modals/wellness-tip-modal/wellness-tip-modal.component.ts:189-198 | Not exercising, not paused, step 0, 0 seconds, no interval; completed steps kept |
| WellnessTip.WellnessTipModal.SaveLog | src/app/home/modals/wellness-tip-modal/wellness-tip-modal.component.ts:266-277 | Exactly one entry with the tip's id and category is appended |
| WellnessTip.WellnessTipModal.CompleteExercise | src/app/home/modals/wellness-tip-modal/wellness-tip-modal.component.ts:260-264 | Stopped and exactly one log entry appended |
| WellnessTip.WellnessTipModal.NextStep | src/app/home/modals/wellness-tip-modal/wellness-tip-modal.component.ts:200-220 | The fields move as `NextStepSpec` says |
| WellnessTip.WellnessTipModal.ToggleChecklistItem | src/app/home/modals/wellness-tip-modal/wellness-tip-modal.component.ts:222-236 | One index flips, and the exercise completes exactly when the set then has as many entries as the tip has steps |
| WellnessTip.WellnessTipModal.Tick | src/app/home/modals/wellness-tip-modal/wellness-tip-modal.component.ts:242-258 | With no live interval nothing changes. With a tip, the countdown falls by one or the next step runs. Without a tip the countdown still falls by one |
| WellnessTip.WellnessTipModal.BackToList | src/app/home/modals/wellness-tip-modal/wellness-tip-modal.component.ts:279-282 | Stopped, then nothing selected |
| WellnessTip.WellnessTipModal.CloseModal | src/app/home/modals/wellness-tip-modal/wellness-tip-modal.component.ts:284-287 | Stopped, and close emitted once |
| StressAssessment.AnswerValues | src/app/home/modals/stress-assessment-modal/stress-assessment-modal.component.ts:219-222 | One value per question, the stored answer of each answered question |
| StressAssessment.Recommendations | src/app/home/modals/stress-assessment-modal/stress-assessment-modal.component.ts:254-277 | Three keys for a low level and four for moderate or high |
| StressAssessment.Score | src/app/home/modals/stress-assessment-modal/stress-assessment-modal.component.ts:228 | A total within 0..60 gives a score within 0..100 |
| StressAssessment.LevelOf | src/app/home/modals/stress-assessment-modal/stress-assessment-modal.component.ts:230-238 | Low exactly below 33, high exactly from 67, moderate between |
| StressAssessment.ScoreBounds | src/app/home/modals/stress-assessment-modal/stress-assessment-modal.component.ts:215-228 | With answers in 0..4 the total is within 0..60 and the score within 0..100 |
| StressAssessment.LevelByTotal | src/app/home/modals/stress-assessment-modal/stress-assessment-modal.component.ts:228-238 | The level in raw points: low up to 19, moderate 20..39, high from 40 |
| StressAssessment.LevelMonotone | src/app/home/modals/stress-assessment-modal/stress-assessment-modal.component.ts:228-238 | A higher total never gives a lower level |
| StressAssessment.ProgressRange | src/app/home/modals/stress-assessment-modal/stress-assessment-modal.component.ts:153-156 | Progress runs from 7 to 100, never falls going forward, and is 100 only on the last question |
| StressAssessment.Progress | src/app/home/modals/stress-assessment-modal/stress-assessment-modal.component.ts:152-156 | 100 once complete; on a question it lies within 7..100 |
| StressAssessment.StressAssessmentModal.CurrentQuestion | src/app/home/modals/stress-assessment-modal/stress-assessment-modal.component.ts:149 | Always one of the fifteen questions |
| StressAssessment.StressAssessmentModal.CanGoNext | src/app/home/modals/stress-assessment-modal/stress-assessment-modal.component.ts:165-167 | Never offered together with submitting |
| StressAssessment.StressAssessmentModal.CanGoPrevious | src/app/home/modals/stress-assessment-modal/stress-assessment-modal.component.ts:170-172 | When offered, the step above 0 and the question before it already answered |
| StressAssessment.StressAssessmentModal.CanSubmit | src/app/home/modals/stress-assessment-modal/stress-assessment-modal.component.ts:175-179 | Only where the progress reads 100 |
| StressAssessment.StressAssessmentModal.constructor | src/app/home/modals/stress-assessment-modal/stress-assessment-modal.component.ts:37-46 | First question, no answers, not complete, no result |
| StressAssessment.StressAssessmentModal.SelectAnswer | src/app/home/modals/stress-assessment-modal/stress-assessment-modal.component.ts:191-196 | Only the current question's entry changes, and earlier questions stay answered |
| StressAssessment.StressAssessmentModal.NextStep | src/app/home/modals/stress-assessment-modal/stress-assessment-modal.component.ts:203-207 | One step forward exactly when the current question is answered and is not the last |
| StressAssessment.StressAssessmentModal.PreviousStep | src/app/home/modals/stress-assessment-modal/stress-assessment-modal.component.ts:209-213 | One step back exactly when above step 0 and not complete |
| StressAssessment.StressAssessmentModal.SubmitAssessment | src/app/home/modals/stress-assessment-modal/stress-assessment-modal.component.ts:215-252 | Nothing unless submission is allowed; then all 15 questions are answered and the result holds the score, its level and that level's recommendations |
| StressAssessment.StressAssessmentModal.SaveResults | src/app/home/modals/stress-assessment-modal/stress-assessment-modal.component.ts:279-287 | With a result it is emitted once and close follows; without one nothing happens |
| StressAssessment.StressAssessmentModal.RetakeAssessment | src/app/home/modals/stress-assessment-modal/stress-assessment-modal.component.ts:289-294 | Back to the first question with no answers and no result |
| AssessmentHistory.InDateRange | src/app/services/assessment-history.service.ts:50-55 | Exactly the entries with start <= timestamp <= end |
| AssessmentHistory.InDateRangeAppend | src/app/services/assessment-history.service.ts:50-55 | Entries are kept or dropped one by one, so the history's order is kept |
| AssessmentHistory.InDateRangeAll | src/app/services/assessment-history.service.ts:50-55 | A range holding every timestamp gives the whole history |
| AssessmentHistory.Latest | src/app/services/assessment-history.service.ts:58-62 | None exactly for an empty history; otherwise the last entry |
| AssessmentHistory.FindById | src/app/services/assessment-history.service.ts:84-86 | None exactly when no entry has the id; otherwise the first entry with it |
| AssessmentHistory.DaysSinceLast | src/app/services/assessment-history.service.ts:109-118 | None exactly for an empty history; otherwise the whole days, rounded up, since the latest entry |
| AssessmentHistory.Deleted | src/app/services/assessment-history.service.ts:76-81 | Exactly the entries without the id remain |
| AssessmentHistory.DeletedAppend | src/app/services/assessment-history.service.ts:76-81 | Deleting from a concatenation deletes from each part, so survivors keep their order |
| AssessmentHistory.DeletedOne | src/app/services/assessment-history.service.ts:76-81 | One entry stays exactly when its id differs, so survivors keep their multiplicity |
| AssessmentHistory.Added | src/app/services/assessment-history.service.ts:65-73 | The old entries unchanged, followed by the result with the new id and time |
| AssessmentHistory.AddedIsLatest | src/app/services/assessment-history.service.ts:65-73 | After an add with a fresh id the new entry is the latest and is found by its id |
| AssessmentHistory.DeleteUndoesAdd | src/app/services/assessment-history.service.ts:65-81 | Deleting a freshly added entry restores the history |
| AssessmentHistory.DeleteIdempotent | src/app/services/assessment-history.service.ts:76-81 | Deleting twice is deleting once |
| AssessmentHistory.RecentScores | src/app/services/assessment-history.service.ts:94 | The last three scores, or all when there are fewer |
| AssessmentHistory.TrendOf | src/app/services/assessment-history.service.ts:89-106 | Insufficient data exactly below two entries |
| AssessmentHistory.TrendOnlyRecent | src/app/services/assessment-history.service.ts:89-106 | Only the last three entries decide the trend |
| AssessmentHistory.TrendOfTwo | src/app/services/assessment-history.service.ts:89-106 | With two entries the trend is improving below -5 points, declining above 5, and stable between |
| AssessmentHistory.AveragesInRange | src/app/services/assessment-history.service.ts:121-147 | With category scores in 0..100 every average is in 0..100 |
| AssessmentHistory.AveragesOf | src/app/services/assessment-history.service.ts:121-147 | Each category's rounded mean over the history, 0 when it is empty |
| AssessmentHistory.SingleEntryAverages | src/app/services/assessment-history.service.ts:121-147 | The averages of one entry are its rounded scores |
| AssessmentHistory.Merge | src/app/services/assessment-history.service.ts:154-160 | Supplied settings override and the rest are kept |
| AssessmentHistory.MergeLaws | src/app/services/assessment-history.service.ts:154-160 | The same patch twice is the patch once, and the empty patch changes nothing |
| AssessmentHistory.DaysToAdd | src/app/services/assessment-history.service.ts:170-185 | 7, 14 or 30 days, or the custom count with 7 when it is absent or 0 |
| AssessmentHistory.DaysToAddTable | src/app/services/assessment-history.service.ts:170-185 | Weekly 7, biweekly 14, monthly 30; custom gives its count when present and non-zero, 7 otherwise |
| AssessmentHistory.NextReminder | src/app/services/assessment-history.service.ts:163-188 | None exactly when disabled; otherwise `DaysToAdd` days of 86 400 000 ms after now: 7, 14 or 30 for the fixed frequencies, the custom count or 7 for custom |
| AssessmentHistory.LoadedHistory | src/app/services/assessment-history.service.ts:206-226 | A stored history is taken when present, the fallback otherwise |
| AssessmentHistory.LoadedSettings | src/app/services/assessment-history.service.ts:206-226 | Stored settings are taken when present, the fallback otherwise |
| AssessmentHistory.MockAssessments | src/app/services/assessment-history.service.ts:233-302 | Five sample results |
| AssessmentHistory.MockTrendImproving | src/app/services/assessment-history.service.ts:233-302 | The sample data reads as improving |
| AssessmentHistory.AssessmentHistoryService.constructor | src/app/services/assessment-history.service.ts:39-42 | Stored data is loaded, and sample data is added only when the history is empty |
| AssessmentHistory.AssessmentHistoryService.Save | src/app/services/assessment-history.service.ts:191-204 | The key holds the history and the settings together |
| AssessmentHistory.AssessmentHistoryService.AddAssessment | src/app/services/assessment-history.service.ts:65-73 | Exactly one entry with the new id and time is appended, earlier ones unchanged, and all is saved |
| AssessmentHistory.AssessmentHistoryService.DeleteAssessment | src/app/services/assessment-history.service.ts:76-81 | The history becomes `Deleted` of the old one and is saved |
| AssessmentHistory.AssessmentHistoryService.GetTrend | src/app/services/assessment-history.service.ts:89-106 | The loop over consecutive changes gives the trend of the averaged change |
| AssessmentHistory.AssessmentHistoryService.GetCategoryAverages | src/app/services/assessment-history.service.ts:121-147 | The summing loop gives the rounded per-category means, zeros when empty |
| AssessmentHistory.AssessmentHistoryService.UpdateReminderSettings | src/app/services/assessment-history.service.ts:154-160 | Settings become `Merge` of the old ones and are saved |
| AssessmentHistory.AssessmentHistoryService.GenerateMockData | src/app/services/assessment-history.service.ts:233-235 | Only an empty history is filled with the samples |
| AssessmentHistory.AssessmentHistoryService.ClearAllData | src/app/services/assessment-history.service.ts:305-312 | Empty history, default settings, and the key removed |
| AssessmentTracking.WindowStart | src/app/assessment-tracking/assessment-tracking.component.ts:45-57 | The window starts 7, 30 or 90 days before now, or at the epoch for all time |
| AssessmentTracking.WindowedAssessments | src/app/assessment-tracking/assessment-tracking.component.ts:41-61 | Exactly the entries inside the window, each as often as in the history, newest first |
| AssessmentTracking.WindowsNest | src/app/assessment-tracking/assessment-tracking.component.ts:41-61 | A wider window never shows fewer entries |
| AssessmentTracking.HighestCategory | src/app/assessment-tracking/assessment-tracking.component.ts:267 | A highest category, the last of equal highest ones |
| AssessmentTracking.TrendKey | src/app/assessment-tracking/assessment-tracking.component.ts:248-254 | One trend key for improving, declining or stable; none for insufficient data |
| AssessmentTracking.LevelKey | src/app/assessment-tracking/assessment-tracking.component.ts:256-263 | The stress-level key for high, moderate and low |
| AssessmentTracking.TrackingRecommendations | src/app/assessment-tracking/assessment-tracking.component.ts:237-274 | Only `noData` without a latest result; otherwise at most one trend key, one level key, and a category key when its score is above 60 |
| AssessmentTracking.CategoryKeyIffAbove60 | src/app/assessment-tracking/assessment-tracking.component.ts:267-271 | A category key appears exactly when some category score is above 60 |
| AssessmentTracking.TieGoesToLater | src/app/assessment-tracking/assessment-tracking.component.ts:267 | With work and emotional tied at the top, emotional is chosen |
| AssessmentTracking.LevelBadgeClass | src/app/assessment-tracking/assessment-tracking.component.ts:277-284 | The secondary badge exactly for a level other than low, moderate and high |
| AssessmentTracking.TrendIcon | src/app/assessment-tracking/assessment-tracking.component.ts:287-296 | The question icon exactly for insufficient data |
| AssessmentTracking.TrendIconInjective | src/app/assessment-tracking/assessment-tracking.component.ts:287-296 | Different trends show different icons |
| Routines.FilteredRoutines | src/app/routines/routines.component.ts:137-143 | All routines for 'all', otherwise exactly those of the category |
| Routines.FindRoutine | src/app/routines/routines.component.ts:164 | None exactly when no routine has the id |
| Routines.RoutineMinutes | src/app/routines/routines.component.ts:166 | Each of the eight durations reads as its leading number: 5, 10, 15, 20, 3, 5, 12 and 5 minutes |
| Routines.MinutesOfId | src/app/routines/routines.component.ts:164-166 | An id outside 1..8 names no routine and adds 0 minutes |
| Routines.IndexOf | src/app/routines/routines.component.ts:186 | The first position of the id, or -1 exactly when absent |
| Routines.Marked | src/app/routines/routines.component.ts:159-182 | An absent id is added with its minutes; a present one changes nothing |
| Routines.Cancelled | src/app/routines/routines.component.ts:184-200 | The first occurrence goes with its minutes; an absent id changes nothing |
| Routines.MarkedConsistent | src/app/routines/routines.component.ts:159-182 | Marking keeps the ids duplicate-free and the minute total equal to the sum over them |
| Routines.CancelledConsistent | src/app/routines/routines.component.ts:184-200 | Cancelling keeps the ids duplicate-free and the total equal to the sum |
| Routines.MarkThenCancel | src/app/routines/routines.component.ts:159-200 | Marking a new id and cancelling it restores the progress |
| Routines.EightMeansAll | src/app/routines/routines.component.ts:174 | Eight distinct routine ids mean every routine is completed, and back |
| Routines.CompletionPercentage | src/app/routines/routines.component.ts:265-269 | The percentage is in 0..100 while at most eight ids are done, and is 100 exactly with eight |
| Routines.LoadToday | src/app/routines/routines.component.ts:225-247 | Today's stored record, or an empty one |
| Routines.SavedInto | src/app/routines/routines.component.ts:249-263 | Only the record for the progress's date is replaced; other dates are untouched |
| Routines.SaveThenLoad | src/app/routines/routines.component.ts:225-263 | Loading a saved date gives the saved progress back |
| Routines.RoutinesPage.constructor | src/app/routines/routines.component.ts:36-40 | The page starts with today's progress and every view closed |
| Routines.RoutinesPage.SaveProgress | src/app/routines/routines.component.ts:249-263 | The key becomes `SavedInto` of the old one |
| Routines.RoutinesPage.MarkAsCompleted | src/app/routines/routines.component.ts:159-182 | Progress becomes `Marked`, stays consistent, is saved for a new id, and shows the congratulations once all eight are done |
| Routines.RoutinesPage.CancelCompletion | src/app/routines/routines.component.ts:184-200 | Progress becomes `Cancelled`, stays consistent, and is saved only when the id was there |
| Routines.RoutinesPage.SetCategory | src/app/routines/routines.component.ts:145-147 | The category is selected |
| Routines.RoutinesPage.OpenRoutineDetail | src/app/routines/routines.component.ts:149-152 | The routine's detail opens |
| Routines.RoutinesPage.CloseRoutineDetail | src/app/routines/routines.component.ts:154-157 | The detail closes |
| Routines.RoutinesPage.ResetAllRoutines | src/app/routines/routines.component.ts:275-286 | Today's progress is empty with 0 minutes, saved, and the congratulations close |
| Routines.RoutinesPage.IsCompleted | src/app/routines/routines.component.ts:202-204 | A ticked routine means the completion percentage is above zero |
| Routines.DifficultyColor | src/app/routines/routines.component.ts:206-213 | Grey exactly for a difficulty other than easy, medium and hard |
| Routines.CategoryLabel | src/app/routines/routines.component.ts:215-223 | An unknown category is shown as itself |
| Reminders.LoadReminders | src/app/home/modals/reminders-modal/reminders-modal.component.ts:57-86 | The stored list, or exactly the two default reminders, with ids 1 and 2 |
| Reminders.FindIndex | src/app/home/modals/reminders-modal/reminders-modal.component.ts:93 | The first position with the id, -1 exactly when none |
| Reminders.ToggledReminder | src/app/home/modals/reminders-modal/reminders-modal.component.ts:92-100 | Only the first reminder with the id flips `enabled` |
| Reminders.ToggleReminderTwice | src/app/home/modals/reminders-modal/reminders-modal.component.ts:92-100 | Toggling twice restores the list |
| Reminders.DeletedReminder | src/app/home/modals/reminders-modal/reminders-modal.component.ts:102-106 | Exactly the reminders without the id remain |
| Reminders.DeletedReminderAppend | src/app/home/modals/reminders-modal/reminders-modal.component.ts:102-106 | Deleting from a concatenation deletes from each part, so survivors keep their order |
| Reminders.DeletedReminderOne | src/app/home/modals/reminders-modal/reminders-modal.component.ts:102-106 | One reminder stays exactly when its id differs, so survivors keep their multiplicity |
| Reminders.DeleteAbsent | src/app/home/modals/reminders-modal/reminders-modal.component.ts:102-106 | Deleting an id that does not occur changes nothing |
| Reminders.ToggledDay | src/app/home/modals/reminders-modal/reminders-modal.component.ts:108-115 | A selected day is removed, another is appended, and no other day changes |
| Reminders.ToggleDayTwice | src/app/home/modals/reminders-modal/reminders-modal.component.ts:108-115 | Toggling twice restores the selection |
| Reminders.NewTitle | src/app/home/modals/reminders-modal/reminders-modal.component.ts:141-150 | The custom title as typed, or the type's translation key |
| Reminders.ReminderIcon | src/app/home/modals/reminders-modal/reminders-modal.component.ts:168-170 | An unknown type shows the bell |
| Reminders.ReminderColor | src/app/home/modals/reminders-modal/reminders-modal.component.ts:172-174 | An unknown type shows grey |
| Reminders.AddError | src/app/home/modals/reminders-modal/reminders-modal.component.ts:130-139 | The no-day alert exactly when no day is chosen; the no-title alert exactly for a custom type whose title is blank after trimming ECMAScript white space |
| Reminders.CustomTitleAccepted | src/app/home/modals/reminders-modal/reminders-modal.component.ts:135-139 | A custom reminder is accepted exactly when its title has a character outside ECMAScript white space |
| Reminders.RemindersModal.constructor | src/app/home/modals/reminders-modal/reminders-modal.component.ts:26-35 | The list is loaded and the form has its defaults |
| Reminders.RemindersModal.SaveReminders | src/app/home/modals/reminders-modal/reminders-modal.component.ts:88-90 | The key holds the list |
| Reminders.RemindersModal.ToggleReminder | src/app/home/modals/reminders-modal/reminders-modal.component.ts:92-100 | The list is toggled, and saved only when the id exists |
| Reminders.RemindersModal.DeleteReminder | src/app/home/modals/reminders-modal/reminders-modal.component.ts:102-106 | The list loses the id's reminders and is saved |
| Reminders.RemindersModal.ToggleDay | src/app/home/modals/reminders-modal/reminders-modal.component.ts:108-115 | The day selection is toggled |
| Reminders.RemindersModal.OpenAddForm | src/app/home/modals/reminders-modal/reminders-modal.component.ts:121-123 | The form shows |
| Reminders.RemindersModal.ResetForm | src/app/home/modals/reminders-modal/reminders-modal.component.ts:159-166 | Every form field has its default |
| Reminders.RemindersModal.CancelAdd | src/app/home/modals/reminders-modal/reminders-modal.component.ts:125-128 | The form hides with its defaults |
| Reminders.RemindersModal.AddReminder | src/app/home/modals/reminders-modal/reminders-modal.component.ts:130-157 | An alert and no change on a rejected form (blank meaning ECMAScript white space only); otherwise one enabled reminder is appended and saved and the form resets |
| Reminders.RemindersModal.AppendFromForm | src/app/home/modals/reminders-modal/reminders-modal.component.ts:141-155 | The form becomes one enabled reminder with the clock id, the custom title or the type's title key, appended after the existing ones and saved |
| Reminders.RemindersModal.CloseModal | src/app/home/modals/reminders-modal/reminders-modal.component.ts:176-178 | Close is emitted once |
| Auth.PublicOf | src/app/services/auth.service.ts:42 | The signed-in record holds the user's id, email and name, and no password |
| Auth.FindLogin | src/app/services/auth.service.ts:37-39 | None exactly when no row matches both email and password; otherwise the first row that matches both |
| Auth.RegisterKeepsUnique | src/app/services/auth.service.ts:57-73 | A registration with a free email keeps emails unique and the new account can log in |
| Auth.FindLoginAppend | src/app/services/auth.service.ts:37-39 | A new row with a fresh email is found by its own credentials |
| Auth.UserStore.constructor | src/app/services/auth.service.ts:89-92 | The two keys hold the given contents |
| Auth.AuthService.constructor | src/app/services/auth.service.ts:28-34 | A saved user is restored; without one nobody is signed in |
| Auth.AuthService.Login | src/app/services/auth.service.ts:36-48 | Succeeds exactly when some row matches both email and password, then signs in that row without its password; otherwise nothing changes |
| Auth.AuthService.Register | src/app/services/auth.service.ts:50-74 | A taken email changes nothing; otherwise exactly one row is appended, the user signed in, and email uniqueness kept |
| Auth.AuthService.Logout | src/app/services/auth.service.ts:76-79 | Nobody signed in, the saved key removed, and not authenticated |
| Auth.AuthService.IsAuthenticated | src/app/services/auth.service.ts:81-83 | True exactly while a user is signed in; `Logout` ends with it false |
| ProfileSettings.PasswordMismatch | src/app/profile-settings/profile-settings.component.ts:94-102 | The mismatch error exactly when the two new-password entries differ |
| ProfileSettings.FieldError | src/app/profile-settings/profile-settings.component.ts:274-286 | Nothing unless touched with errors; then required, email, minimum length, maximum length, pattern in that order |
| ProfileSettings.MismatchShown | src/app/profile-settings/profile-settings.component.ts:288-294 | The mismatch shows exactly when the entries differ and the confirmation was touched |
| ProfileSettings.ProfileFormValidMeans | src/app/profile-settings/profile-settings.component.ts:68-92 | A valid profile form has a name of 2 or more characters, an email that is present and well formed, an empty or 9-15 digit phone, and a bio of at most 500 characters |
| ProfileSettings.ShortNameMessage | src/app/profile-settings/profile-settings.component.ts:274-286 | A one-character name shows "Minimum 2 characters required" |
| ProfileSettings.IndexOfId | src/app/profile-settings/profile-settings.component.ts:165 | The first row with the id, -1 exactly when none |
| ProfileSettings.IndexOfCurrent | src/app/profile-settings/profile-settings.component.ts:165 | With nobody signed in no row matches |
| ProfileSettings.WithProfile | src/app/profile-settings/profile-settings.component.ts:167-177 | The row gets the five form fields and keeps its id and password; other rows are unchanged |
| ProfileSettings.WithPassword | src/app/profile-settings/profile-settings.component.ts:217-220 | Only the row's password changes |
| ProfileSettings.NewPasswordLogsIn | src/app/profile-settings/profile-settings.component.ts:217-220 | After a change the account logs in with the new password |
| ProfileSettings.OldPasswordRejected | src/app/profile-settings/profile-settings.component.ts:217-220 | After a change the old password no longer logs that account in |
| ProfileSettings.WithoutAccount | src/app/profile-settings/profile-settings.component.ts:299-301 | Exactly the rows without the signed-in id remain |
| ProfileSettings.FromStored | src/app/profile-settings/profile-settings.component.ts:104-117 | Missing stored flags default to email on, sms off, weekly on, appointments on |
| ProfileSettings.PreferencesRoundTrip | src/app/profile-settings/profile-settings.component.ts:104-127 | Saving then loading gives the preferences back |
| ProfileSettings.Toggled | src/app/profile-settings/profile-settings.component.ts:233-254 | Exactly the named preference flips |
| ProfileSettings.ToggleTwiceRestores | src/app/profile-settings/profile-settings.component.ts:233-254 | Toggling twice restores the preferences |
| ProfileSettings.ProfileSettingsPage.constructor | src/app/profile-settings/profile-settings.component.ts:30-48 | Profile tab, default preferences, nothing in progress, no messages |
| ProfileSettings.ProfileSettingsPage.Init | src/app/profile-settings/profile-settings.component.ts:52-66 | Nobody signed in sends the page to login; otherwise it takes the user and loads the preferences |
| ProfileSettings.ProfileSettingsPage.LoadPreferences | src/app/profile-settings/profile-settings.component.ts:104-117 | A stored value is read with its defaults; an absent or unparsable one leaves the values |
| ProfileSettings.ProfileSettingsPage.TogglePreference | src/app/profile-settings/profile-settings.component.ts:233-254 | One flag flips, all four are saved, success is reported, and one more 3-second clear is pending |
| ProfileSettings.ProfileSettingsPage.ClearMessages | src/app/profile-settings/profile-settings.component.ts:264-267 | Both messages are cleared |
| ProfileSettings.ProfileSettingsPage.ClearTimeoutFires | src/app/profile-settings/profile-settings.component.ts:253 | A pending 3-second timeout fires: both messages are cleared and one fewer clear is pending |
| ProfileSettings.ProfileSettingsPage.SetActiveTab | src/app/profile-settings/profile-settings.component.ts:130-133 | The tab is set and both messages are cleared |
| ProfileSettings.ProfileSettingsPage.ToggleEditProfile | src/app/profile-settings/profile-settings.component.ts:136-148 | Editing flips and both messages are cleared |
| ProfileSettings.ProfileSettingsPage.SaveProfile | src/app/profile-settings/profile-settings.component.ts:150-197 | An invalid form changes nothing, and the edit mode stays unless the save succeeds; otherwise the signed-in user's row gets the form fields and the saved user becomes (id, email, name), or an error shows when there is no such row |
| ProfileSettings.ProfileSettingsPage.ChangePassword | src/app/profile-settings/profile-settings.component.ts:200-230 | Only when the signed-in row holds the current password is it replaced; otherwise an error and the table unchanged |
| ProfileSettings.ProfileSettingsPage.DeleteAccount | src/app/profile-settings/profile-settings.component.ts:296-307 | After confirmation every row with the signed-in id is removed and the user is logged out and sent to login; without it, or with unparsable stored users, nothing changes |
| AssessmentsConversion.EmotionalStateOf | src/app/services/assessments.service.ts:185-189 | low is CALM, moderate STRESSED, high ANXIOUS, and any other level NEUTRAL, each both ways |
| AssessmentsConversion.TypeNameUpper | src/app/services/assessments.service.ts:195-204 | Every backend type name has no lower-case letter |
| AssessmentsConversion.StateNameUpper | src/app/services/assessments.service.ts:185-189 | Every backend state name has no lower-case letter |
| AssessmentsConversion.TypeName | src/app/services/assessments.service.ts:195-204 | The backend spelling of each assessment type |
| AssessmentsConversion.StateName | src/app/services/assessments.service.ts:185-189 | The backend spelling of each emotional state |
| AssessmentsConversion.LevelText | src/app/home/modals/stress-assessment-modal/stress-assessment-modal.component.ts:230-238 | The text the questionnaire stores for each level |
| AssessmentsConversion.ObservationText | src/app/services/assessments.service.ts:206-209 | With category scores, the four scores and the level in the fixed sentence; without them, the rounded score |
| AssessmentsConversion.QuestionnaireLevelsMapped | src/app/services/assessments.service.ts:185-189 | A questionnaire level is never neutral, and only high is anxious |
| AssessmentsConversion.TypeOf | src/app/services/assessments.service.ts:195-204 | Never risk analysis. Performance exactly when work is strictly above the other three. Psychological exactly without scores, or when emotional is at least every other score |
| AssessmentsConversion.AllEqualIsPsychological | src/app/services/assessments.service.ts:197-198 | With equal categories the last one, emotional, is kept |
| AssessmentsConversion.JoinLength | src/app/services/assessments.service.ts:213 | Joining adds one separator between parts and nothing else |
| AssessmentsConversion.RecommendationText | src/app/services/assessments.service.ts:212-214 | The text ends with a full stop, and is the default sentence for no or no recommendations |
| AssessmentsConversion.RecommendationsKept | src/app/services/assessments.service.ts:212-214 | Every given recommendation appears in the text |
| AssessmentsConversion.TwoRecommendations | src/app/services/assessments.service.ts:212-214 | Two recommendations read "a. b." |
| AssessmentsConversion.Convert | src/app/services/assessments.service.ts:180-224 | The employee id defaults to 1, the score is the input rounded to the nearest integer, and type and state follow the two rules |
| AssessmentsConversion.ConvertedScoreRange | src/app/services/assessments.service.ts:192 | A score in 0..100 stays in 0..100, and whole scores are kept |
| AssessmentsConversion.ForBackend | src/app/services/assessments.service.ts:80-85 | Type and state are upper-cased and every other field is kept |
| AssessmentsConversion.ForBackendIdempotent | src/app/services/assessments.service.ts:97-102 | Upper-casing twice is upper-casing once |
| AssessmentsConversion.ConvertedIsBackendReady | src/app/services/assessments.service.ts:80-85 | A converted record is sent unchanged |
| AssessmentsConversion.LowerCaseTypeSentUpper | src/app/services/assessments.service.ts:80-85 | A hand-typed lower-case type reaches the backend in its spelling |
| AssessmentsConversion.ErrorMessage | src/app/services/assessments.service.ts:146-175 | Browser-side errors read "Error: ..."; statuses 0, 400, 404 and 500 have fixed messages; others carry code and message |
| AssessmentsConversion.StatusReadBack | src/app/services/assessments.service.ts:154 | For other statuses the digits after the prefix read back as the status |
| AssessmentsConversion.FixedMessagesDistinct | src/app/services/assessments.service.ts:157-170 | The fixed messages tell the four statuses apart and never read like a browser-side error |
| Reports.FilteredReports | src/app/reports/reports.component.ts:35-56 | Exactly the reports passing the type filter and the case-free search, each as often as in the list, newest date first |
| Reports.FiltersCompose | src/app/reports/reports.component.ts:35-51 | The type filter then the search is one filter by both conditions |
| Reports.ByType | src/app/reports/reports.component.ts:39-41 | Exactly the reports of the type; all for 'all' |
| Reports.BySearch | src/app/reports/reports.component.ts:44-51 | Exactly the reports whose title, summary or content contains the search, lower-cased over ASCII and Latin-1; all for an empty one |
| Reports.NoFilterShowsAll | src/app/reports/reports.component.ts:35-56 | With no filter and no search every report shows as often as it occurs |
| Reports.SearchIgnoresCase | src/app/reports/reports.component.ts:44-51 | Typing the search in capitals, Latin-1 accents included, shows the same reports |
| Reports.UpperCaseTypesNeverMatch | src/app/reports/reports.component.ts:39-41 | Once stored types are upper-cased, choosing an offered type shows no report |
| Reports.StatisticsOf | src/app/reports/reports.component.ts:59-67 | The total is the number of reports |
| Reports.StatisticsAppend | src/app/reports/reports.component.ts:59-67 | A new report adds one to the count and its figures to the sums |
| Reports.StatisticsNonNegative | src/app/reports/reports.component.ts:59-67 | Reports with no negative figure give no negative sum |
| Reports.GetTypeInfo | src/app/reports/reports.component.ts:254-258 | The entry for the lower-cased type, the daily entry when there is none |
| Reports.UpperCaseTypeFound | src/app/reports/reports.component.ts:254-258 | An upper-cased type still finds its own entry |
| Reports.TypeTable | src/app/reports/reports.component.ts:26-32 | The table holds the offered types in order, each once |
| Reports.FormValidMeans | src/app/reports/reports.component.ts:86-100 | A valid form has an employee id of at least 1, a title of 5..200 characters, content of 20 or more, a summary of 10..500, a type, counts of 0 or more and a date |
| Reports.FieldError | src/app/reports/reports.component.ts:260-271 | Nothing unless touched with an error; then required, minimum length, maximum length, minimum in that order |
| Reports.ValidFormShowsNoError | src/app/reports/reports.component.ts:260-271 | A valid form shows no error on any field |
| Reports.ReportOf | src/app/reports/reports.component.ts:193 | The report a valid form sends has no id, the form's title and type, and no negative count |
| Reports.DemoReports | src/app/reports/reports.component.ts:132-164 | Two demo reports, dated today and two days before |
| Reports.DemoStatistics | src/app/reports/reports.component.ts:132-164 | The demo data totals 2 reports, 17 completed, 5 pending, 1 blocker |
| Reports.UnreachableTriggersFallback | src/app/services/reports.service.ts:161 | The status-0 message contains the text that triggers the offline data |
| Reports.ReportsPage.constructor | src/app/reports/reports.component.ts:16-24 | No reports, 'all', no search, no dialog, not loading |
| Reports.ReportsPage.Shown | src/app/reports/reports.component.ts:35-56 | The shown list is newest first and holds exactly the reports passing the type filter and the search |
| Reports.ReportsPage.StartLoading | src/app/reports/reports.component.ts:105-107 | Loading with no error shown |
| Reports.ReportsPage.LoadSucceeded | src/app/reports/reports.component.ts:110-112 | The list is replaced and loading ends |
| Reports.ReportsPage.LoadFailed | src/app/reports/reports.component.ts:115-125 | The message shows; an unreachable backend brings the demo data, any other failure keeps the list |
| Reports.ReportsPage.SetFilter | src/app/reports/reports.component.ts:245-247 | The filter is set |
| Reports.ReportsPage.SetSearch | src/app/reports/reports.component.ts:249-252 | The search is set |
| Reports.ReportsPage.OpenCreateModal | src/app/reports/reports.component.ts:166-179 | The create dialog opens |
| Reports.ReportsPage.CloseCreateModal | src/app/reports/reports.component.ts:181-184 | The create dialog closes |
| Reports.ReportsPage.ViewReport | src/app/reports/reports.component.ts:212-215 | The report is shown |
| Reports.ReportsPage.CloseViewModal | src/app/reports/reports.component.ts:217-220 | The view closes with nothing selected |
| Reports.ReportsPage.CreateReport | src/app/reports/reports.component.ts:186-195 | A report is sent exactly when the form is valid, and then the page waits |
| Reports.ReportsPage.CreateSucceeded | src/app/reports/reports.component.ts:196-202 | Exactly one report is appended, the count rises by one, and the dialog closes |
| Reports.ReportsPage.RequestFailed | src/app/reports/reports.component.ts:203-208 | The list is unchanged and the message is shown and alerted |
| Reports.ReportsPage.DeleteReport | src/app/reports/reports.component.ts:222-229 | A request is sent exactly when confirmed |
| Reports.ReportsPage.DeleteSucceeded | src/app/reports/reports.component.ts:230-235 | The list becomes the order-keeping filter of the old list by a different id: every report with the id leaves, all others stay in order and multiplicity |
| Reports.CreateThenDeleteHides | src/app/reports/reports.component.ts:198-232 | A report created and then deleted by its id is not shown under any filter |
| VideoCall.Pad2 | src/app/shared/video-call-modal/video-call-modal.component.ts:60-61 | Short texts are padded with zeros to two characters; longer ones are kept |
| VideoCall.FormatDuration | src/app/shared/video-call-modal/video-call-modal.component.ts:57-62 | Digits, a colon and exactly two digits; the part before the colon reads as the whole minutes and the last two as the seconds within the minute |
| VideoCall.PaddedValue | src/app/shared/video-call-modal/video-call-modal.component.ts:57-62 | A padded number is all digits and reads back as the number |
| VideoCall.FormatDurationRoundTrip | src/app/shared/video-call-modal/video-call-modal.component.ts:57-62 | Minutes times 60 plus seconds, read off the text, is the duration |
| VideoCall.FormatExamples | src/app/shared/video-call-modal/video-call-modal.component.ts:57-62 | 65 seconds read "01:05"; an hour reads "60:00" |
| VideoCall.Flip | src/app/shared/video-call-modal/video-call-modal.component.ts:64-74 | Exactly the named flag flips |
| VideoCall.FlipTwice | src/app/shared/video-call-modal/video-call-modal.component.ts:64-74 | The same toggle twice restores the controls |
| VideoCall.FlipsCommute | src/app/shared/video-call-modal/video-call-modal.component.ts:64-74 | Different toggles commute |
| VideoCall.VideoCallModal.constructor | src/app/shared/video-call-modal/video-call-modal.component.ts:16-22 | Connecting, zero duration, every toggle off, no interval |
| VideoCall.VideoCallModal.StopDurationTimer | src/app/shared/video-call-modal/video-call-modal.component.ts:50-55 | The live interval, if any, is cleared; a second call changes nothing |
| VideoCall.VideoCallModal.StartDurationTimer | src/app/shared/video-call-modal/video-call-modal.component.ts:43-48 | Any old interval is cleared before exactly one new one starts |
| VideoCall.VideoCallModal.SetStatus | src/app/shared/video-call-modal/video-call-modal.component.ts:24-37 | On a change to connected one interval runs; any other status has none; no change keeps the interval |
| VideoCall.VideoCallModal.Connect | src/app/shared/video-call-modal/video-call-modal.component.ts:24-37 | The connection timeout as written: from connecting or ended, the call becomes connected with exactly one fresh interval live |
| VideoCall.VideoCallModal.ConnectIfConnecting | src/app/shared/video-call-modal/video-call-modal.component.ts:33-36 | The corrected timeout: a connecting call becomes connected with one fresh interval; any other status, interval and live set are kept |
| VideoCall.VideoCallModal.Tick | src/app/shared/video-call-modal/video-call-modal.component.ts:45-47 | The duration grows by exactly one when the interval is live, and not otherwise |
| VideoCall.VideoCallModal.ToggleMic | src/app/shared/video-call-modal/video-call-modal.component.ts:64-66 | The controls become `Flip` for the microphone |
| VideoCall.VideoCallModal.ToggleCamera | src/app/shared/video-call-modal/video-call-modal.component.ts:68-70 | The controls become `Flip` for the camera |
| VideoCall.VideoCallModal.ToggleScreenShare | src/app/shared/video-call-modal/video-call-modal.component.ts:72-74 | The controls become `Flip` for screen sharing |
| VideoCall.VideoCallModal.EndCall | src/app/shared/video-call-modal/video-call-modal.component.ts:76-81 | Ended, no interval live, duration kept, close emitted once |
| VideoCall.VideoCallModal.CloseModal | src/app/shared/video-call-modal/video-call-modal.component.ts:83-86 | No interval live, status kept, close emitted once |
| VideoCall.VideoCallModal.Destroy | src/app/shared/video-call-modal/video-call-modal.component.ts:39-41 | No interval outlives the dialog |
| VideoCall.CallFor | src/app/shared/video-call-modal/video-call-modal.component.ts:24-62 | A call connected for k seconds then ended shows the MM:SS of k, which reads back as k |
| VideoCall.EndBeforeConnectAsWritten | src/app/shared/video-call-modal/video-call-modal.component.ts:33-36 | Ending within two seconds, then the timeout: the call shows connected with one interval running |
| VideoCall.EndBeforeConnect | src/app/shared/video-call-modal/video-call-modal.component.ts:33-36 | The same with the corrected timeout: the call stays ended with no interval |

## Left out

- HTTP and observables: the `HttpClient` calls of the assessments service, and the reports and appointments HTTP clients. The reports page's requests are modelled as sent, answered or failed, with the answer or message as a parameter.
- Local storage and JSON: keys are typed cells; the JSON text itself is not modelled.
- Timers: `setInterval` is a set of live handles and `Tick()`; `setTimeout` bodies (the delayed save and password change, the video-call close, the routines congratulations) run at once. The video-call connection timeout is `Connect`, which the caller may run after `EndCall`, as the browser can. The preference toggle's 3-second clear is a pending count fired by `ClearTimeoutFires`; the order in which it interleaves with other actions is left to the caller.
- Clock and dates: `Date.now()`, `new Date()` and ISO dates are integer parameters. Report dates are day numbers, and routine dates are opaque strings.
- Randomness: generated ids and the random category scores of the tracking page are parameters.
- `alert` and `confirm`: alerts are logged in a sequence where the page keeps one; `confirm` is a boolean parameter.
- JavaScript number-to-text conversion of reals: the observations text takes the formatting function as a parameter (`show`).
- Floating point: the unrounded progress percentages of the two modals, and the charts of the tracking page. JavaScript numbers that are not whole are exact reals in the model, except for the one count recorded at `BoxBreathing.BreathProgress`.
- AssessmentHistory.AveragesOf: the category scores are summed and divided as exact reals. JavaScript sums doubles, so a mean lying within rounding error of a half may round the other way. The same holds for `AssessmentHistory.AssessmentHistoryService.GetCategoryAverages`.
- AssessmentsConversion.Convert: the input score is an exact real, rounded half up. A double input rounds the same way, but the model does not capture that the double may already differ from the intended decimal in its last place.
- Angular forms: the validators are modelled as predicates over the field values. The browser's email check is a boolean parameter, and touched-marking, reset and enable/disable are not modelled.
- The iCalendar export, the CSV report, the share link, and the registration component are not part of this model.
- AssessmentsConversion.EmotionalStateOf: `emotionalStateMap[level]` on a key that names an inherited `Object.prototype` property, such as "constructor", finds that property instead of falling back to NEUTRAL. The model treats every key outside the table as missing.
- AssessmentTracking.LevelBadgeClass: `classes[level]` on an inherited key such as "constructor" or "toString" returns the inherited function, not 'badge bg-secondary'. The model gives the fallback for every key outside the table.
- Routines.DifficultyColor: `colors[difficulty]` on an inherited key such as "toString" returns the inherited function, not '#6b7280'. The model gives the fallback for every key outside the table.
- Routines.CategoryLabel: `labels[category]` on an inherited key such as "constructor" returns the inherited function, not the category itself. The model gives the category for every key outside the table.
- `parseInt` on a duration without a leading number gives NaN; every routine duration starts with digits.
- Reports.FilteredReports: the page sorts its own `reports` array in place when no filter applies. The model returns a sorted copy, so the order of the stored list afterwards is not modelled.
- Reports.UpperCaseTypesNeverMatch: stated as "no report is a member of the result" rather than "the result is empty".
- ProfileSettings.ProfileSettingsPage.SaveProfile: with unparsable stored users the delayed body throws, and the model leaves the saving flag set. The auth service's own current-user value is not updated, as in the source.
- ProfileSettings.ProfileSettingsPage.ChangePassword: the form reset after success is not modelled.
- Reminders.LoadReminders: unparsable stored reminders make the parse throw; this is excluded by a precondition.
- Auth.AuthService.constructor: an unparsable saved user makes the parse throw; this is excluded by a precondition.
- Common.ToLower: lower-cases the ASCII and Latin-1 letters and Ÿ. Letters of other scripts are left unchanged, and so is İ, whose JavaScript lower case is two characters. The same holds for `Common.LowerChar`.
- Common.ToUpper: upper-cases the ASCII and Latin-1 letters and ÿ, except ß (JavaScript gives "SS") and µ (JavaScript gives a Greek capital mu). Letters of other scripts are left unchanged. The same holds for `Common.UpperChar`.
- ProfileSettings.MinLength: counts characters, where JavaScript's `minlength` and `maxlength` count UTF-16 code units; a character outside the Basic Multilingual Plane counts once here and twice there. The same holds for `ProfileSettings.MaxLength`.
- AssessmentHistory.NextReminder: adds whole days of 86 400 000 ms. `setDate` adds calendar days in local time, so across a daylight-saving change the two differ by an hour; time zones are not modelled.
- Reminders.LoadReminders: an empty string under the key gives the defaults, because `if (saved)` treats it as missing. A cell cannot hold raw text, so that case is the `Absent` cell.
- StressAssessment.AnswerValues: sums the answers in question order rather than map insertion order; the total is the same.

## Findings

| source | as written | input that shows it | evidently intended | confidence | as-written member | corrected member |
|---|---|---|---|---|---|---|
| src/app/coaching/coaching.ts:231-248 | Reopening the breathing dialog from a saved snapshot sets `breathRunning` to false but does not clear `breathTimer`, so the old interval keeps running | Start, let one second pass, reopen the dialog, start again: two intervals tick, and the countdown runs at double speed | Clear the running interval before restoring | low, not executed (the page may hide the open control while the dialog shows) | BoxBreathing.ReopenWhileRunningAsWritten | BoxBreathing.ReopenWhileRunning |
| src/app/shared/video-call-modal/video-call-modal.component.ts:33-36 | The 2-second connection timeout sets the status to connected whatever it is, so a call ended within the first two seconds becomes connected again and the effect starts its duration interval | Open the dialog and end the call after one second: at two seconds the ended call shows connected and counts until the delayed close | Set connected only while the status is still connecting | low, not executed (the dialog closes two seconds after the end) | VideoCall.EndBeforeConnectAsWritten | VideoCall.EndBeforeConnect |
