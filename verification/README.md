# HIT Coach exercise timer in Dafny

A model of the exercise-timer core of the HIT Coach web application (`app.js`).

Each exercise attempt runs through a fixed sequence of timed phases: prep, positioning, eccentric, concentric and final eccentric. It ends in a terminal `complete` phase. The state machine is driven by a one-second interval, and a voice counts down the last five seconds of each phase. Between exercises a rest countdown announces the next exercise and starts it when the rest runs out. Around the timer sit a few bookkeeping rules:
- the duration table, edited in clamped steps;
- the list of completed exercises, kept without duplicates;
- a newest-first history log;
- a weight that never drops below zero;
- guarded choices of profile (1 or 2) and workout (A or B).

How the model is laid out:
- **`Coach.App`** (`coach.dfy`) is the application's global `state` object as a class. Each operation is a method with a field-level `modifies` frame and a contract giving the new state.
- **The two interval handles** (`timerInterval`, `restTimerInterval`) are single slots, `phaseTask` and `restTask`. The rest slot also holds the closure's countdown variable and the index it will start. One firing of an interval is an explicit method, `PhaseTick` or `RestTick`.
- **Speech and screen switches** are appended to the log `effects`.
- **localStorage** is the value `store`. It has one typed map per key family (`storage.dfy`), and serialisation is not modelled. Two reads are helper functions without rows of their own:
  - `Storage.StoredWeight` is `getLastWeight(name) || 0` (app.js:825-833, used at 197 and 347);
  - `Storage.History` is `getHistory` (app.js:577-580), the log that `AddEntry` is specified by.
- **The pure parts** of the application are functions, and the methods are specified through them:
  - the phase order, the duration table and its limits (`phases.dfy`);
  - the countdown as a value (`timer.dfy`);
  - the spoken numbers (`speech.dfy`);
  - the workouts and the completion list (`workouts.dfy`).
- **The lemmas about those functions** state what a whole run of the timer does:
  - a phase of duration `d` lasts `max(d, 1)` ticks;
  - a started attempt reaches `complete` after exactly `SecondsToComplete` ticks, and not before;
  - the voice says `min(d - 1, 5)` down to `1`, and never `0`;
  - a rest says "5 seconds" exactly once;
  - five advances from prep reach `complete`, and later ones change nothing.

`timeRemaining` is an `int`. A phase configured to 0 seconds (prep and positioning allow it) ticks to -1 before the `<= 0` test advances it, and the model keeps that behaviour.

## Model

| member | source | states |
|---|---|---|
| Phases.IndexOf | app.js:38 | every phase has exactly one position in the fixed order |
| Phases.Next | app.js:289-293 | the successor is one position further on; only `complete` maps to itself |
| Phases.NextNIndex | app.js:289-310 | n advances move min(n, places left) positions forward |
| Phases.FiveAdvancesComplete | app.js:289-310 | from prep, n advances reach `complete` exactly when n >= 5, so five advances reach it and later ones change nothing |
| Phases.Get | app.js:29-36 | the duration table has an entry for every key except `complete` |
| Phases.Put | app.js:681 | writing one entry makes it read back the written value; every other entry is unchanged |
| Phases.LimitOf | app.js:671-678 | each setting except `complete` has a non-negative range min <= max, e.g. rest [30, 180] |
| Phases.Duration | app.js:299 | a timed phase's duration is its table entry, within the phase's range in a well-formed table |
| Phases.Clamp | app.js:681 | `max(min, min(max, v))` lies within the range and is the point of the range nearest to v |
| Phases.ResetDuration | app.js:317-321 | the configured duration, or 10 when there is none (`complete`) or it is 0; positive and within range in a well-formed table |
| Phases.Indicators | app.js:358-383 | each of the three dots is idle before its phase, active during it and past after it |
| Speech.Spoken | app.js:711-744 | one speech effect per text, in order |
| Speech.Numeral | app.js:278 | `toString()` of a count: non-empty decimal digits, no leading zero, denoting the count |
| Timer.Advance | app.js:289-310 | the next phase with its configured duration; entering `complete` leaves the time alone; at `complete` nothing moves |
| Timer.Tick | app.js:270-286 | one second off; a tick moves at most one phase on, only once the time reaches 0 or below, and in a timed phase it then does advance; a tick into a timed phase loads that phase's configured duration; a tick that stays or enters `complete` leaves the time one lower |
| Timer.TicksAdd | app.js:267-287 | a + b ticks are a ticks followed by b ticks |
| Timer.CountsDown | app.js:273 | before the time runs out, k ticks take exactly k seconds off and keep the phase |
| Timer.PhaseLasts | app.js:273-285 | a phase of duration d stays for max(d, 1) - 1 ticks and the next tick advances it (a 0-second phase passes through -1) |
| Timer.RunsToComplete | app.js:267-310 | a started attempt reaches `complete` after exactly SecondsToComplete ticks and not at any earlier tick |
| Timer.DefaultAttemptSeconds | app.js:29-36 | the default table is within its limits and an attempt with it takes 105 ticks |
| Timer.Cue | app.js:277-279 | a tick announces the value it reached exactly when 0 < t <= 5, and the words denote t |
| Timer.PhaseCues | app.js:277-279 | over a whole phase of duration d the voice says min(d - 1, 5) down to 1: never 0, never above 5 |
| Timer.RestCuesAt | app.js:497-499 | k rest ticks from t say "5 seconds" once if they pass through 5, otherwise nothing |
| Timer.RestCuedOnce | app.js:494-505 | a full rest of at least 6 seconds says "5 seconds" exactly once |
| Timer.SilentAtComplete | app.js:289-292 | advances at `complete` say nothing |
| Timer.AttemptAnnouncements | app.js:289-310 | five or more advances from prep announce the four later phases' labels in order and then "Complete! Great work!" |
| Timer.CompleteSaidOnce | app.js:332-337 | the completion phrase is said exactly once per attempt, however often it is advanced |
| Workouts.Exercises | app.js:5-26 | each workout lists eight exercises |
| Workouts.ExercisesDistinct | app.js:5-26 | no workout lists an exercise twice |
| Workouts.ParseWorkoutType | app.js:117 | only "A" and "B" are accepted, each as itself |
| Workouts.Include | app.js:448-451 | push-if-absent: the name is present afterwards, the old list is a prefix, it grows by at most one, and it has no duplicates if it had none |
| Workouts.IncludeTwice | app.js:448-451 | logging the same exercise twice marks it once |
| Workouts.NoDupBound | app.js:448-451 | a duplicate-free list drawn from a list is no longer than it |
| Workouts.CompletedBound | app.js:553-556 | a duplicate-free completion list drawn from the workout never exceeds the workout's size |
| Storage.SaveWeight | app.js:820-823 | the record (weight and failure flag) under this profile and exercise is replaced; the weight under every other (profile, exercise) pair and every other key family stay |
| Storage.AddEntry | app.js:570-575 | the entry is put in front: the log grows by one with the entry at index 0; other profiles' logs and every other key family stay |
| Storage.SaveCompletion | app.js:809-812 | the list is stored under this profile and workout; the list under every other (profile, workout) pair and every other key family stay |
| Storage.SaveType | app.js:805-807 | the type is stored for this profile; other profiles' types and every other key family stay |
| Storage.SaveProfile | app.js:107 | the chosen profile is stored; every other key family stays |
| Storage.TypeRoundTrip | app.js:793-807 | the type saved for a profile is the one a later loadState picks for it; other profiles load what they did before |
| Storage.ProfileRoundTrip | app.js:781-785 | the profile a switch stores is the one a later loadState or start-up picks |
| Storage.SwitchUndone | app.js:89-108 | when a different profile is stored, loadState brings it back instead of the requested one |
| Coach.App.constructor | app.js:51-71 | the initial state object, followed by loadState on the given storage |
| Coach.App.LoadState | app.js:780-803 | the profile, the workout type and the completion list are taken from storage where present |
| Coach.App.LoadCompletionState | app.js:814-818 | the stored list for this profile and workout, else empty |
| Coach.App.SaveState | app.js:772-778 | this profile's workout type and completion list are stored; nothing else changes |
| Coach.App.SelectProfileAsWritten | app.js:89-108 | as written: anything but 1 or 2 changes nothing; otherwise the loaded profile is the previously stored one, if any |
| Coach.App.SelectProfile | app.js:89-108 | corrected: anything but 1 or 2 changes nothing; otherwise the requested profile is current, with its stored workout type and completion list |
| Coach.App.SelectWorkoutType | app.js:116-133 | anything but A or B changes nothing; otherwise the type is set, the index goes to 0, its completion list is loaded and the choice stored |
| Coach.App.StartExercise | app.js:190-227 | index i, phase prep with its configured duration, not running, not paused, failure checked, weight = stored weight or 0; the name is spoken |
| Coach.App.PauseTimer | app.js:243-250 | not running, paused, interval cleared; phase and time are outside its frame, so a pause then a resume keep the time exactly |
| Coach.App.RunTimer | app.js:267-269 | the interval is cleared and scheduled again, so one is live |
| Coach.App.ResumeTimer | app.js:252-265 | running, not paused, interval live; the phase label is spoken unless the phase is `complete` |
| Coach.App.ToggleTimer | app.js:235-241 | pauses a running timer, resumes a stopped one |
| Coach.App.CompleteExerciseTimer | app.js:332-356 | stops, clears the interval, says "Complete! Great work!" and loads the stored weight |
| Coach.App.AdvancePhase | app.js:289-310 | the countdown becomes Advance of the old one; the running flag is untouched for a timed phase; entering `complete` stops it; at `complete` nothing changes |
| Coach.App.PhaseTick | app.js:270-286 | no effect unless running; otherwise the countdown becomes Tick of the old one, the value is spoken when 0 < t <= 5, and at t <= 0 the interval is cleared and the phase advances |
| Coach.App.SkipPhase | app.js:312-315 | a cancel followed by advancePhase, whatever time remains |
| Coach.App.ResetPhase | app.js:317-321 | the phase stays, the timer is paused and the time is ResetDuration |
| Coach.App.StopTimer | app.js:323-330 | both intervals cleared, both flags false, back to the exercise list |
| Coach.App.StartRest | app.js:472-507 | after the last exercise it stops; otherwise it announces the next exercise and schedules a rest countdown from the rest setting |
| Coach.App.RestTick | app.js:493-505 | one second off the rest; "5 seconds" at exactly 5; at 0 or below the interval is cleared and the next exercise starts |
| Coach.App.SkipRest | app.js:509-519 | the rest interval is cleared; the next exercise starts if there is one, otherwise the timer stops |
| Coach.App.AdjustWeight | app.js:401-402 | the weight moves by the amount but is floored at 0 |
| Coach.App.ToggleFailure | app.js:407-410 | the failure flag flips |
| Coach.App.LogSet | app.js:442-469 | the weight record is saved, the name is added to the completion list if absent, one history entry goes in front, the list is saved |
| Coach.App.FinishWorkout | app.js:522-530 | the completion list is emptied and stored empty; weights stay; "Workout complete!" is spoken |
| Coach.App.AdjustPhaseSetting | app.js:670-685 | the entry becomes clamp(old + amount) within its range, the other entries stay and the table is stored; for `complete` nothing changes |

## Left out

- Rendering:
  - every DOM update is left out: text content, class toggles, icons, the progress text and the exercise list;
  - screen changes appear only as `Show` effects;
  - the dot states of `updatePhaseIndicators` are modelled by the `Indicators` function and are not stored in the class.
- Speech synthesis:
  - voice choice, rate, pitch and the browser engine are left out;
  - the `synth.cancel()` that cuts off a previous utterance is left out;
  - each `speak` call is one `Speak` effect;
  - `setVoice`, `loadVoiceSettings` and `saveVoiceSettings` are not part of this model.
- Storage encoding:
  - JSON encoding and decoding, and `parseInt`, are left out;
  - stored values are typed: the stored profile is 1 or 2, stored weights are non-negative and stored completion lists have no duplicates, as the application itself writes them;
  - values written by anything else are not modelled.
- Weights and weight steps are `real`, not JavaScript doubles (`Storage.Lbs`, `Coach.App.AdjustWeight`). The floor at 0 is kept, but the rounding of fractional amounts is lost.
- `loadPhaseSettings`: the start-up merge of stored settings over the defaults is left out. The model starts from the defaults, and `AdjustPhaseSetting` still records the table it saves.
- `resetWorkout`: left out, because it depends on a `confirm` dialog. It also deletes keys, which the store model does not need elsewhere.
- `loadHistoryDisplay` and `formatTime`: the history display and the clock are left out. (`getHistory` is modelled as `Storage.History`.) `logSet`'s timestamp is the `date` parameter.
- `updateStatusTime` and the wake lock are left out.
- `service-worker.js` is not part of this model.
- The `setInterval` timing is left out. An interval is a slot, and each firing is an explicit `PhaseTick` or `RestTick` call.
- `logSetAndDone`, `logAndStartRest` and `logAndAnotherSet` (app.js:426-440) are not modelled as separate methods. Each is `LogSet` followed by `StopTimer`, `StartRest` or `StartExercise`, and those are modelled.
- `editExercise` (app.js:229-232) and `showProfileModal` (app.js:110-113) only forward to `startExercise` and `selectProfile`, so they are not modelled separately.
- Coach.App.StartExercise: requires `index < 8`. In the source an index outside the list throws at `exercise.name`, and every caller passes a listed index.
- Coach.App.Valid: does not include the fact that every completed name belongs to the current workout. `CompletedBound` proves the progress bound from that fact, but the class does not carry it.
- Coach.App.Valid: does not exclude both intervals being live at once, and the model, like the source, allows it: `startExercise` (app.js:190-227) never clears `restTimerInterval`, so from a scheduled rest, `StartExercise` then `ResumeTimer` leave `phaseTask` set and `restTask` present, and a later `RestTick` would start the captured next exercise. Whether the page lets the user leave the rest screen without `skipRest` is decided by markup that is not part of this model.

## Findings

| source | as written | input that shows it | evidently intended | confidence | as-written member | corrected member |
|---|---|---|---|---|---|---|
| app.js:89-108, 780-785 | selectProfile calls loadState before it stores `hitcoach_currentProfile`, so loadState reloads the previously stored profile and overwrites the new choice | selectProfile(1) after an earlier selectProfile(2): the current profile ends up 2 | the requested profile becomes current and its workout type and completion list are loaded | not executed | Coach.App.SelectProfileAsWritten, Storage.SwitchUndone | Coach.App.SelectProfile |
