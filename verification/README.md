# Career guidance flow controller, in Dafny

This project models the session flow controller of a career-guidance web app.
The controller walks a student through five journeys and back to the Landing
screen:
- guidance after 10th grade;
- guidance after 12th grade;
- a skills assessment quiz;
- a job-market lookup;
- an expert-contact form.

The session is one immutable record (`Controller.State`). It holds the flow, the
step, the loading flag, the error, and every selection, quiz and job-market
field. `step` is a Dafny `real`, which is exact, so the sub-step 1.5 and the
`step - 1` of back-navigation are modelled without rounding.

Each user action is a pure function. An action that consults the advisory
gateway, the remote AI service, takes the call's outcome as an input:
`Success(data)` or `Failure`. It returns a `Transition`, which holds the new
state and the request it issued, if any. That makes statements such as "no call
is made" and "the open-ended analysis is requested" part of the contracts.

Modules:
- `Types`: the shapes and enumerations of `types.ts`.
- `Seqs`: duplicate-free tag lists and the removal filter.
- `Controller`: state, reset, back, the load/error wrapper and every handler,
  all as written.
- `Corrected`: the three handlers corrected under "## Findings": the two quiz starts and back.
- `Machine`: the screens as a state machine. `Machine.Enabled` says which
  actions each (flow, step) screen offers, following the buttons the renderer
  draws. `Machine.Apply` says what each action does. Traces from the initial
  state define the reachable states. The machine has two variants: the code as
  written (`AsWritten`) and with the corrections (`Fixed`).

The model follows the code on these points:
- Four of the five Landing tiles (App.tsx:280, 281, 283, 284) only switch the
  flow and keep the current step. For them, step 1 on entry is a consequence of
  the invariant "Landing is always at step 1" (`Machine.TileEntersFirstStep`).
  The assessment tile also sets step 1 (App.tsx:172).
- Reset leaves the loading flag as it is.
- The expert-contact stub does not use the load/error wrapper.
- The only fractional step is 1.5.
- The chosen interests are an ordered list. Toggling appends to it or filters
  from it.

## Model

| member | source | states |
|---|---|---|
| Types.ParseLevel | types.ts:4 | a salary potential or demand level is exactly one of the texts High, Medium, Low; any other text is rejected |
| Types.LevelRoundTrip | types.ts:34 | every level's text reads back as that level |
| Types.ParseTier | types.ts:10 | a college tier is exactly one of Dream, Reach, Safety; any other text is rejected |
| Types.TierRoundTrip | types.ts:10 | every tier's text reads back as that tier |
| Types.FlowOf | types.ts:39-46 | the flow enumeration has exactly the values 0..5, each naming one flow |
| Types.FlowClosed | types.ts:39-46 | every flow has an ordinal below 6 that maps back to it, so the set of flows is closed |
| Types.Streams10 | types.ts:48-53 | the 10th-grade streams are four, with pairwise distinct string values |
| Types.Streams12 | types.ts:55-60 | the 12th-grade streams are four, with pairwise distinct string values |
| Types.Streams10Complete | App.tsx:472 | the 10th-grade stream picker lists every stream |
| Types.Streams12Complete | App.tsx:503 | the 12th-grade stream picker lists every stream |
| Types.Stream10Of | types.ts:48-53 | a string is read as a 10th-grade stream only when it is that stream's value |
| Types.Stream10RoundTrip | types.ts:48-53 | each 10th-grade stream's value reads back as that stream (values are distinct) |
| Types.Stream12Of | types.ts:55-60 | a string is read as a 12th-grade stream only when it is that stream's value |
| Types.Stream12RoundTrip | types.ts:55-60 | each 12th-grade stream's value reads back as that stream |
| Seqs.Remove | App.tsx:178 | the filter keeps exactly the elements different from the removed tag, never adds one, and keeps a duplicate-free list duplicate-free |
| Seqs.RemoveAppended | App.tsx:176-180 | appending an absent tag and then filtering it out gives back the original list |
| Seqs.RemoveSplices | App.tsx:178 | on a duplicate-free list the filter cuts out the one occurrence at its position and keeps the order of the rest |
| Seqs.RemoveMember | App.tsx:178 | filtering out a tag present in a duplicate-free list shortens it by exactly one |
| Controller.Initial | App.tsx:13-41 | the session starts on Landing at step 1, not loading, with no error, no selection, empty lists, an empty profile, no quiz, no answers and no job-market result |
| Controller.Reset | App.tsx:58-81 | reset yields the initial session of lines 13-41 in every field except the loading flag, which it leaves alone; flow Landing, step 1, no error |
| Controller.ResetIdempotent | App.tsx:58-81 | resetting twice is the same as resetting once, and reset never touches loading |
| Controller.InFlight | App.tsx:45-46 | while a call is in flight the error is cleared, loading is raised, and nothing else has changed |
| Controller.FailedFrom | App.tsx:50-54 | after a failed call the generic error is shown, loading is lowered, and flow, step and every other field are unchanged |
| Controller.ApiCall | App.tsx:44-56 | the wrapper issues the request; on success exactly the success transition is applied to the in-flight state; on failure nothing but error and loading change; loading is false afterwards either way |
| Controller.Back | App.tsx:83-99 | back from the interest picker or a question returns to step 1 and clears questions, index and answers while keeping flow, interests and kind; otherwise it lowers the step by exactly 1 and keeps the flow; at step 1 it leaves for Landing clearing only the job-market query and result and the expert flag; on Landing it resets |
| Controller.SelectSubject10 | App.tsx:102-109 | picking a 10th-grade stream records it even if the call fails; it requests that stream's career options; success shows them at after-10th step 2 with the error cleared and every other field unchanged; failure keeps flow and step |
| Controller.SelectCareer10 | App.tsx:111-119 | picking a career records career and stream even on failure; it requests their pathway; success shows it at after-10th step 3 with the error cleared and every other field unchanged |
| Controller.SelectSubject12 | App.tsx:122-129 | picking a 12th-grade stream records it even on failure; it requests its courses; success shows them at after-12th step 2 with the error cleared and every other field unchanged |
| Controller.SelectCourse12 | App.tsx:131-134 | picking a course records it and moves to step 3 with no gateway call, changing nothing else |
| Controller.FindColleges | App.tsx:136 | "find colleges" moves to step 4 with no gateway call, changing nothing else |
| Controller.FindCareers | App.tsx:138-143 | "find careers" requests careers for the selected course, possibly absent; success shows them at step 7 in the same flow, with the error cleared and every other field unchanged |
| Controller.ProfileSubmit | App.tsx:145-151 | the profile form requests college suggestions for the selected course and profile; success shows them at step 5 with the error cleared and every other field unchanged |
| Controller.SelectCollege | App.tsx:153-159 | picking a college records it even on failure; it requests its admission pathway; success shows it at step 6 with the error cleared and every other field unchanged |
| Controller.SelectCareer12 | App.tsx:161-167 | picking a career after 12th records it even on failure; it requests its pathway; success shows it at step 8 with the error cleared and every other field unchanged |
| Controller.StartAssessment | App.tsx:170-173 | the assessment tile enters the assessment at step 1, changing nothing else |
| Controller.ChooseInterests | App.tsx:377 | "I have a few interests" sets step 1.5 and nothing else |
| Controller.Toggle | App.tsx:176-180 | toggling flips the tag's membership and leaves every other tag's membership alone; an absent tag is appended at the end; on a duplicate-free list a present tag is cut out at its position with the order of the rest kept; no duplicates are created |
| Controller.ToggleTwice | App.tsx:175-181 | toggling the same tag twice restores the original membership, and the very same list when the tag was absent |
| Controller.ToggleLength | App.tsx:175-181 | on a duplicate-free list a toggle adds or removes exactly one tag |
| Controller.InterestToggle | App.tsx:175-181 | the interest toggle flips one tag's membership in the session and changes nothing else |
| Controller.StartHots | App.tsx:183-189 | the open-ended quiz records its kind even on failure; it requests open-ended questions; success shows them at step 2 with the error cleared and every other field unchanged, the index and answers included |
| Controller.InterestsSubmit | App.tsx:191-201 | with no interest chosen only the validation error is set and no call is made; otherwise the kind is recorded, the chosen interests are sent, and success shows the questions at step 2 with the error cleared and every other field unchanged |
| Controller.AnswerSubmit | App.tsx:203-220 | the answer is stored under the current question's id; before the last question the index advances and nothing else changes; at the last one the analysis matching the kind is requested, and success sets the result and step 3 with the error cleared and every other field unchanged; with no current question nothing changes |
| Controller.AnalysisFor | App.tsx:211-213 | the open-ended analysis is requested exactly when the quiz kind is open-ended, the interest analysis otherwise, each with the answers given |
| Controller.AnswersGrow | App.tsx:203-206 | answering adds exactly the current question's id to the answered ids and loses none |
| Controller.QuizCompletes | App.tsx:203-220 | answering every remaining question records an answer under each remaining question's id, loses no earlier answer, and ends with the index on the last question |
| Controller.QuizOutcome | App.tsx:208-219 | after all the remaining answers, the results step shows the analysis when it succeeds; on failure the quiz stays on its step with the generic error |
| Controller.JobMarketSubmit | App.tsx:223-229 | an empty query does nothing and makes no call; otherwise the query is sent and kept, and success replaces the result while flow and step stay |
| Controller.JobMarketResubmit | App.tsx:223-229 | submitting the same query twice leaves the second reply as the result and the query unchanged |
| Controller.ExpertFormSubmit | App.tsx:231-239 | the expert form marks the request as sent and lowers loading, changing nothing else |
| Controller.ChooseTile | App.tsx:280-284 | the after-10th, after-12th, job-market and expert tiles (lines 280, 281, 283, 284) switch to their flow and change nothing else, the step included; the assessment tile at line 282 is Controller.StartAssessment instead |
| Corrected.StartHots | App.tsx:183-189 | corrected: a successful open-ended quiz start shows the questions at step 2, starts at question 0 with no answers, clears the error and changes nothing else; failure is as written |
| Corrected.InterestsSubmit | App.tsx:191-201 | corrected: a successful interest quiz start shows the questions at step 2, starts at question 0 with no answers, clears the error and changes nothing else; the empty and failure cases are as written |
| Corrected.Back | App.tsx:89-90 | corrected: back from the career list of the after-12th flow returns to step 3; every other back is as written |
| Machine.KnownScreen | App.tsx:273-590 | the screens the renderer's switch has a case for, with Landing, the expert and the job-market screens pinned to step 1: every flow has a step-1 screen, the half step exists only in the assessment, only the after-12th flow goes past step 3, and no step is outside 1..8 |
| Machine.BackShown | App.tsx:311-583 | the back button is never on Landing, never on a pathway screen or the quiz results, and on the expert screen only before the request is sent |
| Machine.Enabled | App.tsx:273-596 | the header's home link is offered everywhere; Landing offers only it and the five tiles; a pathway screen offers only home and "Start Over"; an answer is offered only with a question on screen |
| Machine.Apply | App.tsx:83-239 | no action raises the loading flag; home lands on Landing at step 1; only home, back, the tiles and the stream and career picks of the guidance flows change the flow |
| Machine.VariantsAgree | App.tsx:83-201 | the corrected machine differs from the code as written only in back from step 7 of the after-12th flow and in the question index and answers a quiz start leaves |
| Machine.InitialInv | App.tsx:13-41 | the initial session is a recognised screen, not loading, with no duplicate interest, and the quiz invariants hold |
| Machine.StepInv | App.tsx:83-239 | every action a screen offers leads to a (flow, step) pair the renderer's switch has a case for, with loading false and no duplicate interest; with the corrections it also keeps the question index inside the question list whenever there are questions, and keeps the admission screen tied to a chosen college |
| Machine.ReachableInv | App.tsx:369-590 | every state reachable through the screens has a (flow, step) pair the renderer's switch has a case for, Landing and the single-screen flows at step 1 |
| Machine.ReachableStepFacts | App.tsx:369-383 | over all reachable states the step is at least 1, Landing is at step 1, step 1.5 occurs only in the assessment, and loading is false between actions |
| Machine.FixedReachableInv | App.tsx:410-412 | with the corrections, the question and admission invariants hold over every reachable state |
| Machine.QuizIndexInRange | App.tsx:410-412 | with the corrections, the question index lies in [0, number of questions) whenever there are questions |
| Machine.TileEntersFirstStep | App.tsx:280-284 | a Landing tile enters its flow at step 1 |
| Machine.ForwardStepsCovered | App.tsx:102-167 | every forward move within the after-10th and after-12th flows is one of 1→2→3 (after 10th) or 1→2→3→4→5→6, 3→7→8 (after 12th) |
| Machine.BackUndoesForward | App.tsx:89-90 | with the corrections, back from the screen a forward move reached returns to the screen it left |
| Machine.BackFromCareerListMissesOrigin | App.tsx:89-90 | as written, back from step 7 goes to step 6, not to step 3 from which step 7 is reached |
| Machine.StaleQuizIndexReachable | App.tsx:183-189 | as written, a valid sequence of actions reaches assessment step 2 with a non-empty question list and the index past its end, where the question screen's render throws |
| Machine.AdmissionWithoutCollegeReachable | App.tsx:89-90 | as written, a valid sequence of actions reaches the admission pathway screen with no college chosen |
| Machine.AdmissionShowsChosenCollege | App.tsx:573 | with the corrections, the admission pathway screen is only ever reached with a chosen college |

## Left out

- The advisory gateway (`services/geminiService.ts`) is left out. Its prompts, SDK calls and JSON parsing are represented only by a `Request` value and a `Success(data)`/`Failure` outcome.
- Rendering is not modelled (App.tsx:242-603 and the components). `Machine.Enabled` keeps only which actions each screen offers, so that reachable states can be defined. The progress-bar percentage and the badge colours are out of scope.
- Form-field constraints the browser enforces (`required` inputs) are not modelled. The handlers' own guards are.
- Asynchrony is left out: every handler runs to completion. Navigating while a call is in flight and stale completions are not modelled. The loading flag's raised state is shown only as `Controller.InFlight`.
- Controller.ExpertFormSubmit: the one-second timer is taken as one atomic step. The flag set before the timer starts is not modelled as a separate state.
- The unused loading-message argument of the wrapper is not modelled. Console logging of errors is not modelled either.
- Controller.AnswerSubmit: with no current question the source throws at line 205 before any update. The model returns the state unchanged with no call.
- Machine.KnownScreen: it says which (flow, step) pairs have a case in the renderer's switch, not that the case draws something. At assessment step 2 with an empty question list the renderer returns nothing (App.tsx:411). This blank screen is reachable in both variants when the gateway returns no questions. Only the header's home link is offered there, which is what `Machine.Enabled` allows.
- Machine.Enabled: offers the header's home link on every state. With the question index past the end of the list (the first finding), the render itself throws at App.tsx:417, so nothing is on screen and the home link there is an over-approximation.
- JavaScript `number` ids are modelled as `int`. A fractional id from the gateway is out of scope.

## Findings

| source | as written | input that shows it | evidently intended | confidence | as-written member | corrected member |
|---|---|---|---|---|---|---|
| App.tsx:183-201 | starting a quiz loads new questions at step 2 but keeps the previous quiz's question index and answers | finish a two-question open-ended quiz; pick the suggested stream; back twice to Landing; open the assessment; start a one-question open-ended quiz: the index is 1 with one question, so the question at App.tsx:412 is undefined and reading its text at App.tsx:417 throws during render, leaving no screen at all | a new quiz starts at question 0 with no answers, as back out of a quiz already arranges (App.tsx:84-88) | medium, not executed | Machine.StaleQuizIndexReachable | Machine.QuizIndexInRange |
| App.tsx:89-90 | back from step 7 of the after-12th flow, the career list reached from step 3, lowers the step to 6, the admission pathway of the colleges branch | pick a 12th-grade stream and a course, "find careers", back: step 6 shows an admission pathway with no college chosen | back returns to step 3, the screen the career list was reached from | medium, not executed | Machine.AdmissionWithoutCollegeReachable | Machine.AdmissionShowsChosenCollege |
