# NPS kiosk survey — Dafny model

A model of the survey screen of a tablet kiosk (`src/App.jsx`). A visitor
picks a Net Promoter score from 0 to 10. After a 400 ms pause the screen moves
to a detail step, where the visitor rates five aspects with one to five stars,
types a comment and presses the finish button. The button inserts one row,
`{score, comment, location_id, additional_ratings}`, into the backend's
`surveys` table. A stored row shows a thank-you step. A failed insert leaves
the answers in place so that the visitor can press the button again.

The React component is stripped down to a state machine:

- `Survey.Form` is the component state: `step` (1, 2 or 3), `loading`, the
  optional `score`, the five ratings and the comment.
- `Survey.Kiosk` adds what the browser keeps for the form:
  - the number of 400 ms timers scheduled and not yet fired;
  - the insert call being awaited;
  - the log of every payload handed to the insert call.
- `Survey.Event` has one constructor per thing that can happen: an NPS click,
  a timer firing, a star click, typing in the comment box, a press of the
  finish button, and the reply of the insert call (`Stored` or `Failed`). The
  reply is chosen by the environment, so every outcome is covered.
- `Survey.Enabled` says which events the rendered screen can deliver in a
  state. NPS buttons exist only on step 1. Stars and the comment box exist
  only on step 2. The finish button is on step 2 and is disabled while
  `loading`.
- `Survey.Step` applies one event atomically.
- `SurveyTraces` runs sequences of events and proves what holds in every
  state reachable from the initial one.
- `StarRating` models the rule that lights a star.
- `NpsButtons` models the colour class of each NPS button.

Files: `wrappers.dfy` (Option), `stars.dfy`, `nps.dfy`, `survey.dfy`,
`traces.dfy`, `stale_timer.dfy`.

## Model

| member | source | states |
|---|---|---|
| `StarRating.Row` | src/App.jsx:17-18 | in a row of stars 1..k, star i+1 is "on" exactly when i+1 <= rating, otherwise "off" |
| `StarRating.Render` | src/App.jsx:17-18 | the widget has five stars and star n is lit iff n <= rating |
| `StarRating.RowLitCount` | src/App.jsx:17-18 | a row of k stars lights max(0, min(rating, k)) stars |
| `StarRating.LitStars` | src/App.jsx:17-18 | for a rating 0..5 exactly `rating` stars are lit |
| `NpsButtons.ButtonClass` | src/App.jsx:72-80 | class is "" iff no score is stored; "dimmed" iff a different score is stored; "selected " + the band's hue iff this button's number is stored |
| `NpsButtons.NoScoreNoClass` | src/App.jsx:73 | with no score stored, every button 0..10 has class "" and none is selected |
| `NpsButtons.ExactlyOneSelected` | src/App.jsx:74-79 | with a score 0..10 stored: red iff score <= 6, yellow iff 7..8, green iff 9..10, all other buttons dimmed, and exactly one of the 11 buttons selected |
| `Survey.ZeroRatings` | src/App.jsx:32-38 | the initial ratings object has exactly the five aspect keys, all at 0 |
| `Survey.InitialState` | src/App.jsx:27-39 | step 1, not loading, no score, all five ratings 0, empty comment, no timer or call pending; the invariant holds there |
| `Survey.HandleNpsSelect` | src/App.jsx:41-42 | the clicked score replaces the stored one; step, loading, ratings and comment unchanged |
| `Survey.TimerCallback` | src/App.jsx:44-46 | the timer callback sets step 2 and touches nothing else |
| `Survey.HandleRatingChange` | src/App.jsx:49-51 | the aspect gets the value, every other rating keeps its value, and score, comment, step and loading are unchanged |
| `Survey.SetComment` | src/App.jsx:113 | the comment becomes the typed text; nothing else changes |
| `Survey.BuildPayload` | src/App.jsx:55-60 | the row carries the current score, comment and ratings and the kiosk's location id |
| `Survey.StartSubmit` | src/App.jsx:54 | pressing finish sets loading and keeps the answers and the step |
| `Survey.FinishSubmit` | src/App.jsx:62-68 | after the reply loading is false; step becomes 3 on success and stays on error; score, ratings and comment are kept |
| `Survey.Step` | src/App.jsx:41-69 | one event applies its handler (lines 41-69, and the textarea handler at line 113); a press of finish appends exactly the current payload to the insert log; every other event appends nothing |
| `Survey.Enabled` | src/App.jsx:82-131 | NPS clicks 0..10 only on step 1; star clicks 1..5 and typing only on step 2; finish only on step 2 while not loading; a timer fires only if one is pending; a reply arrives only for a call in flight |
| `Survey.StepPreservesInv` | src/App.jsx:41-69 | every deliverable event keeps the invariant: step in {1,2,3}, step >= 2 and pending timers imply a score, score in 0..10, ratings in 0..5 on the five keys, loading iff a call is awaited, and every sent row is well formed |
| `Survey.ReselectOverwrites` | src/App.jsx:41-47 | a second NPS click overwrites the score, leaves the step, and schedules one more timer |
| `Survey.TimerIdempotent` | src/App.jsx:44-46 | a firing timer sets step 2, and a second firing leaves the form unchanged |
| `Survey.StarClickRatesExactly` | src/App.jsx:49-51 | clicking star i of an aspect rates it i, its widget then lights i stars, and the other four ratings, score, comment, step and loading are unchanged |
| `Survey.SubmitSendsCurrentAnswers` | src/App.jsx:53-60 | finish can be pressed only when no call is outstanding and a score is set; it puts the current answers in flight and disables itself |
| `Survey.FailedInsertKeepsAnswers` | src/App.jsx:62-64 | a failed insert keeps step 2, score, ratings and comment, clears loading, and enables a manual retry |
| `Survey.StoredInsertThanks` | src/App.jsx:65-68 | a stored insert sets step 3 and clears loading |
| `SurveyTraces.RunPreservesInv` | src/App.jsx:41-69 | the invariant survives any sequence of deliverable events |
| `SurveyTraces.Reachable` | src/App.jsx:27-69 | in every reachable state: step in {1,2,3}, step >= 2 implies a score, score in 0..10, ratings in 0..5, loading iff a call is awaited, and every sent row has a score |
| `SurveyTraces.OneInsertPerSubmit` | src/App.jsx:53-60 | the insert log grows by exactly one row per press of finish and never loses rows |
| `SurveyTraces.NoSecondInsertWhileLoading` | src/App.jsx:117 | while a call is awaited, no taps before its reply make another call, and loading stays true |
| `SurveyTraces.WalkthroughPayload` | src/App.jsx:55-60 | score 9, four stars for the facilities and the comment "great" send exactly the row {9, "great", "Squash", facilities 4, the rest 0}; a stored reply then shows step 3 |
| `StaleTimer.StaleTimerReopensForm` | src/App.jsx:41-47 | as written, two NPS clicks leave a timer that takes step 3 back to step 2, and a second press of finish inserts the same row again |
| `StaleTimer.StepGuarded` | src/App.jsx:44-46 | corrected step: behaves as written, except that a timer firing off step 1 leaves the form unchanged |
| `StaleTimer.StepGuardedPreservesInv` | src/App.jsx:41-69 | the corrected step keeps the same invariant |
| `StaleTimer.ThanksIsFinal` | src/App.jsx:65-66 | under the corrected step, step 3 is never left and no further row is inserted |
| `StaleTimer.GuardedTimerLeavesScoring` | src/App.jsx:44-46 | under the corrected step, the timer still moves a chosen score from step 1 to step 2 |
| `StaleTimer.GuardedDoubleTap` | src/App.jsx:44-46 | on the double-tap sequence, the first six events are deliverable under the corrected step, it stays on step 3 with one row sent, and the duplicate press of finish cannot be delivered |

## Left out

- Construction of the backend client and the environment variables (src/App.jsx:6-8) are left out because they are configuration of a foreign library. `LocationId` is the constant `"Squash"` (src/App.jsx:11).
- The insert call itself (src/App.jsx:55) is left out. It is a network call: the model records its payload and receives its reply as an `InsertReturned` event.
- `console.error` and `alert` (src/App.jsx:63-64) are output only.
- JSX rendering, layout classes and text (src/App.jsx:82-140) are user interface. What the screen lets the visitor do is kept, as `Survey.Enabled`.
- The 400 ms delay is not modelled as time. A fired timer is a `TimerFired` event that any other event may precede.
- React's batching and rendering are left out. Each handler is one atomic transition. `handleSubmit` is split at its `await` into `SubmitClicked` and `InsertReturned`.
- An insert call that rejects instead of resolving with an error is not modelled. `handleSubmit` has no try/finally (src/App.jsx:53-69), so such a rejection would skip `setLoading(false)` and leave the finish button disabled. The backend library reports failures as an `error` field of the resolved value, which the `Failed` outcome models.
- `Survey.HandleRatingChange`: the source accepts any key string for `aspect`. The model allows only the five keys used by the widgets (src/App.jsx:104-108).
- A reset from the thank-you step back to step 1 is not modelled, because this file has none. The thank-you step is final only under the corrected step.
- Clamping of ratings is not modelled, because the file does not clamp them. Ratings stay in 0..5 only because the widgets offer stars 1..5. `Survey.StepPreservesInv` proves this under `Survey.Enabled`.
- No null-score guard is modelled on submit, because the source has none. That a row always carries a score follows from the invariant (`SurveyTraces.Reachable`).

## Findings

| source | as written | input that shows it | evidently intended | confidence | as-written member | corrected member |
|---|---|---|---|---|---|---|
| src/App.jsx:44-46 | every NPS click schedules a timer that is never cancelled, and its callback sets step 2 whatever the current step | NpsClicked(5), NpsClicked(9), TimerFired, SubmitClicked, InsertReturned(Stored), TimerFired: the last timer takes step 3 back to 2, and SubmitClicked then inserts a duplicate row. In real time this needs two conditions. First, the NPS buttons must still accept a tap once a score is chosen; the stylesheet that could block this is not part of this model. Second, the press of finish and the whole insert must complete before the last click's timer fires, so within 400 ms of that click | the pause only delays leaving step 1, so the thank-you step is final | low, not executed | `StaleTimer.StaleTimerReopensForm` | `StaleTimer.ThanksIsFinal` |

The rest of the model (`Survey.Step` and the `SurveyTraces` lemmas) follows the
code as written. `StaleTimer.StepGuarded` has the same invariant, proved in
`StaleTimer.StepGuardedPreservesInv`. Under it the thank-you step is final.
