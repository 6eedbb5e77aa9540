/**
 * The application's global state and the operations that change it
 * (app.js:50-133, 189-356, 400-575, 670-685). Each `speak` and screen switch
 * is appended to `effects`; the two interval handles are single slots that
 * are cleared and set, never stacked; localStorage is the `store` value.
 */
module Coach {
  import opened Wrappers
  import opened Phases
  import opened Speech
  import opened Timer
  import opened Workouts
  import opened Storage

  /** A live rest interval: the countdown variable its closure decrements and the index it will start. */
  datatype RestCountdown = RestCountdown(remaining: int, nextIndex: nat)

  class App {
    var currentProfile: Profile
    var workoutType: WorkoutType
    var exerciseIndex: nat
    var phase: Phase
    var timeRemaining: int
    var running: bool
    var paused: bool
    var completed: Completed
    var currentWeight: Lbs
    var reachedFailure: bool
    var settings: Settings
    /** Whether the phase interval (timerInterval) is scheduled. */
    var phaseTask: bool
    /** The rest interval (restTimerInterval), when scheduled. */
    var restTask: Option<RestCountdown>
    var store: Store
    var effects: seq<Effect>

    /** Everything Valid asks except the bound on the countdown, which a tick breaks for an instant before it advances. */
    ghost predicate Settled()
      reads this
    {
      && exerciseIndex < ExerciseCount
      && WellFormed(settings)
      && (restTask.Some? ==> restTask.value.nextIndex < ExerciseCount)
    }

    /** The state invariant: in a timed phase the countdown is within 0 and the phase's limit. */
    ghost predicate Valid()
      reads this
    {
      Settled() && (phase != Complete ==> 0 <= timeRemaining <= MaxOf(phase))
    }

    ghost function Clock(): Countdown
      reads this
    {
      Countdown(phase, timeRemaining)
    }

    function CurrentExercise(): string
      reads this
      requires exerciseIndex < ExerciseCount
    {
      Exercises(workoutType)[exerciseIndex]
    }

    /** The history entry logSet writes at the given timestamp. */
    function LogEntry(date: string): HistoryEntry
      reads this
      requires exerciseIndex < ExerciseCount
    {
      HistoryEntry(CurrentExercise(), workoutType, currentWeight, reachedFailure, currentProfile, date)
    }

    /** The initial state object, then loadState at start-up. */
    constructor (saved: Store)
      ensures Valid()
      ensures currentProfile == LoadedProfile(saved.currentProfile, 1)
      ensures workoutType == LoadedType(saved, currentProfile, A)
      ensures completed == Completion(saved, currentProfile, workoutType)
      ensures exerciseIndex == 0 && Clock() == Countdown(Prep, 10)
      ensures !running && !paused && currentWeight == 0.0 && reachedFailure
      ensures settings == DefaultSettings && !phaseTask && restTask == None
      ensures store == saved && effects == []
    {
      currentProfile := 1;
      workoutType := A;
      exerciseIndex := 0;
      phase := Prep;
      timeRemaining := 10;
      running := false;
      paused := false;
      completed := [];
      currentWeight := 0.0;
      reachedFailure := true;
      settings := DefaultSettings;
      phaseTask := false;
      restTask := None;
      store := saved;
      effects := [];
      new;
      LoadState();
    }

    // ----- profile and workout selection -----

    /** loadState: the stored profile if any, that profile's stored workout type if any, and its completion list. */
    method LoadState()
      requires Valid()
      modifies this`currentProfile, this`workoutType, this`completed
      ensures Valid()
      ensures currentProfile == LoadedProfile(store.currentProfile, old(currentProfile))
      ensures workoutType == LoadedType(store, currentProfile, old(workoutType))
      ensures completed == Completion(store, currentProfile, workoutType)
    {
      if store.currentProfile.Some? {
        currentProfile := store.currentProfile.value;
      }
      if currentProfile in store.workoutTypes {
        workoutType := store.workoutTypes[currentProfile];
      }
      LoadCompletionState();
    }

    /** loadCompletionState: the stored list for this profile and workout, or none. */
    method LoadCompletionState()
      modifies this`completed
      ensures completed == Completion(store, currentProfile, workoutType)
    {
      if (currentProfile, workoutType) in store.completed {
        completed := store.completed[(currentProfile, workoutType)];
      } else {
        completed := [];
      }
    }

    /** saveState: records this profile's workout type and completion list. */
    method SaveState()
      modifies this`store
      ensures store == old(store).(snapshots := old(store).snapshots[currentProfile := Snapshot(workoutType, completed)])
    {
      store := store.(snapshots := store.snapshots[currentProfile := Snapshot(workoutType, completed)]);
    }

    /**
     * selectProfile exactly as written: loadState runs before the new choice
     * is stored, so it reloads whichever profile the previous switch stored.
     */
    method SelectProfileAsWritten(profile: int)
      requires Valid()
      modifies this`store, this`currentProfile, this`workoutType, this`completed
      ensures Valid()
      ensures !IsProfile(profile) ==>
        store == old(store) && currentProfile == old(currentProfile) &&
        workoutType == old(workoutType) && completed == old(completed)
      ensures IsProfile(profile) ==>
        && currentProfile == LoadedProfile(old(store).currentProfile, profile)
        && workoutType == LoadedType(old(store), currentProfile, old(workoutType))
        && completed == Completion(old(store), currentProfile, workoutType)
        && store == SaveProfile(old(store).(snapshots := old(store).snapshots[old(currentProfile) := Snapshot(old(workoutType), old(completed))]), profile)
    {
      if !IsProfile(profile) {
        return;
      }
      SaveState();
      currentProfile := profile;
      LoadState();
      store := SaveProfile(store, profile);
    }

    /** selectProfile with the choice stored before loadState reads it: the requested profile is the one loaded. */
    method SelectProfile(profile: int)
      requires Valid()
      modifies this`store, this`currentProfile, this`workoutType, this`completed
      ensures Valid()
      ensures !IsProfile(profile) ==>
        store == old(store) && currentProfile == old(currentProfile) &&
        workoutType == old(workoutType) && completed == old(completed)
      ensures IsProfile(profile) ==>
        && currentProfile == profile
        && workoutType == LoadedType(old(store), profile, old(workoutType))
        && completed == Completion(old(store), profile, workoutType)
        && store == SaveProfile(old(store).(snapshots := old(store).snapshots[old(currentProfile) := Snapshot(old(workoutType), old(completed))]), profile)
    {
      if !IsProfile(profile) {
        return;
      }
      SaveState();
      currentProfile := profile;
      store := SaveProfile(store, profile);
      LoadState();
    }

    /** selectWorkoutType: only "A" or "B"; the index goes back to the first exercise and that workout's completion list is loaded. */
    method SelectWorkoutType(name: string)
      requires Valid()
      modifies this`workoutType, this`exerciseIndex, this`completed, this`store
      ensures Valid()
      ensures ParseWorkoutType(name).None? ==>
        workoutType == old(workoutType) && exerciseIndex == old(exerciseIndex) &&
        completed == old(completed) && store == old(store)
      ensures ParseWorkoutType(name).Some? ==>
        && workoutType == ParseWorkoutType(name).value && exerciseIndex == 0
        && completed == Completion(old(store), currentProfile, workoutType)
        && store == SaveType(old(store), currentProfile, workoutType)
    {
      var t := ParseWorkoutType(name);
      if t.None? {
        return;
      }
      workoutType := t.value;
      exerciseIndex := 0;
      LoadCompletionState();
      store := SaveType(store, currentProfile, workoutType);
    }

    // ----- the phase timer -----

    /** startExercise: Prep with its configured duration, stopped and not paused, failure checked, the stored weight loaded. */
    method StartExercise(index: nat)
      requires Valid() && index < ExerciseCount
      modifies this`exerciseIndex, this`currentWeight, this`reachedFailure, this`phase,
               this`timeRemaining, this`running, this`paused, this`effects
      ensures Valid()
      ensures exerciseIndex == index
      ensures currentWeight == StoredWeight(store, currentProfile, CurrentExercise())
      ensures reachedFailure
      ensures Clock() == Enter(Prep, settings)
      ensures !running && !paused
      ensures effects == old(effects) + [Show(TimerScreen), Speak(CurrentExercise())]
    {
      var name := Exercises(workoutType)[index];
      exerciseIndex, currentWeight, reachedFailure, phase, timeRemaining, running, paused, effects :=
        index, StoredWeight(store, currentProfile, name), true, Prep, Duration(settings, Prep), false, false,
        effects + [Show(TimerScreen), Speak(name)];
    }

    /** pauseTimer: stops the countdown without touching phase or remaining time. */
    method PauseTimer()
      requires Valid()
      modifies this`running, this`paused, this`phaseTask
      ensures Valid()
      ensures !running && paused && !phaseTask
    {
      running := false;
      paused := true;
      phaseTask := false;
    }

    /** runTimer: clears the phase interval and schedules a new one, so at most one is ever live. */
    method RunTimer()
      modifies this`phaseTask
      ensures phaseTask
    {
      phaseTask := false;
      phaseTask := true;
    }

    /** resumeTimer: runs the countdown, announcing the phase unless it is Complete. */
    method ResumeTimer()
      requires Valid()
      modifies this`running, this`paused, this`phaseTask, this`effects
      ensures Valid()
      ensures running && !paused && phaseTask
      ensures effects == old(effects) + (if phase != Complete then [Speak(Label(phase))] else [])
    {
      running := true;
      paused := false;
      if phase != Complete {
        effects := effects + [Speak(Label(phase))];
      }
      RunTimer();
    }

    /** toggleTimer: pause when running, resume otherwise. */
    method ToggleTimer()
      requires Valid()
      modifies this`running, this`paused, this`phaseTask, this`effects
      ensures Valid()
      ensures old(running) ==> !running && paused && !phaseTask && effects == old(effects)
      ensures !old(running) ==>
        running && !paused && phaseTask &&
        effects == old(effects) + (if phase != Complete then [Speak(Label(phase))] else [])
    {
      if running {
        PauseTimer();
      } else {
        ResumeTimer();
      }
    }

    /** completeExerciseTimer: stops, announces completion and loads the stored weight for the entry form. */
    method CompleteExerciseTimer()
      requires Settled()
      modifies this`running, this`phaseTask, this`effects, this`currentWeight
      ensures Settled()
      ensures !running && !phaseTask
      ensures effects == old(effects) + [Speak(CompleteText)]
      ensures currentWeight == StoredWeight(store, currentProfile, CurrentExercise())
    {
      running := false;
      phaseTask := false;
      effects := effects + [Speak(CompleteText)];
      currentWeight := StoredWeight(store, currentProfile, CurrentExercise());
    }

    /**
     * advancePhase: the next phase in order. A timed phase gets its duration,
     * its label is spoken and the countdown rescheduled with the running flag
     * untouched; entering Complete stops the timer; at Complete nothing happens.
     */
    method AdvancePhase()
      requires Settled()
      modifies this`phase, this`timeRemaining, this`running, this`phaseTask, this`effects, this`currentWeight
      ensures Valid()
      ensures Clock() == Advance(old(Clock()), settings)
      ensures effects == old(effects) + Spoken(AdvanceAnnouncement(old(phase)))
      ensures old(phase) == Complete ==>
        running == old(running) && phaseTask == old(phaseTask) && currentWeight == old(currentWeight)
      ensures old(phase) != Complete && phase != Complete ==>
        running == old(running) && phaseTask && currentWeight == old(currentWeight)
      ensures old(phase) != Complete && phase == Complete ==>
        !running && !phaseTask && currentWeight == StoredWeight(store, currentProfile, CurrentExercise())
    {
      var i := IndexOf(phase);
      if i < |Order| - 1 {
        phase := Order[i + 1];
        if phase == Complete {
          CompleteExerciseTimer();
        } else {
          timeRemaining := Duration(settings, phase);
          effects := effects + [Speak(Label(phase))];
          RunTimer();
        }
      }
    }

    /**
     * One firing of the phase interval. With no interval scheduled nothing
     * fires, and a stopped timer ignores it. Otherwise one second comes off,
     * the numbers 5 to 1 are spoken, and at 0 or below the interval is
     * cleared and the phase advances.
     */
    method PhaseTick()
      requires Valid()
      modifies this`phase, this`timeRemaining, this`running, this`phaseTask, this`effects, this`currentWeight
      ensures Valid()
      ensures !(old(phaseTask) && old(running)) ==>
        Clock() == old(Clock()) && running == old(running) && phaseTask == old(phaseTask) &&
        effects == old(effects) && currentWeight == old(currentWeight)
      ensures old(phaseTask) && old(running) ==>
        var t := old(timeRemaining) - 1;
        var entered := old(phase) != Complete && phase == Complete;
        && Clock() == Tick(old(Clock()), settings)
        && effects == old(effects) + Spoken(Cue(t) + (if t <= 0 then AdvanceAnnouncement(old(phase)) else []))
        && phaseTask == (t > 0 || phase != Complete)
        && running == !entered
        && currentWeight == (if entered then StoredWeight(store, currentProfile, CurrentExercise()) else old(currentWeight))
    {
      if !phaseTask || !running {
        return;
      }
      timeRemaining := timeRemaining - 1;
      if 0 < timeRemaining <= 5 {
        effects := effects + [Speak(Numeral(timeRemaining))];
      }
      if timeRemaining <= 0 {
        phaseTask := false;
        AdvancePhase();
      }
    }

    /** skipPhase: clear the interval and advance, whatever time is left. */
    method SkipPhase()
      requires Valid()
      modifies this`phase, this`timeRemaining, this`running, this`phaseTask, this`effects, this`currentWeight
      ensures Valid()
      ensures Clock() == Advance(old(Clock()), settings)
      ensures effects == old(effects) + Spoken(AdvanceAnnouncement(old(phase)))
      ensures phaseTask == (phase != Complete)
      ensures running == (old(running) && !(old(phase) != Complete && phase == Complete))
      ensures currentWeight ==
        (if old(phase) != Complete && phase == Complete
         then StoredWeight(store, currentProfile, CurrentExercise()) else old(currentWeight))
    {
      phaseTask := false;
      AdvancePhase();
    }

    /** resetPhase: pause, then restore the phase's duration (10 when it has none or it is 0); the phase stays. */
    method ResetPhase()
      requires Valid()
      modifies this`running, this`paused, this`phaseTask, this`timeRemaining
      ensures Valid()
      ensures !running && paused && !phaseTask
      ensures timeRemaining == ResetDuration(settings, phase)
    {
      PauseTimer();
      timeRemaining := ResetDuration(settings, phase);
    }

    /** stopTimer: clears both intervals and both flags and returns to the exercise list. */
    method StopTimer()
      requires Valid()
      modifies this`phaseTask, this`restTask, this`running, this`paused, this`effects
      ensures Valid()
      ensures !phaseTask && restTask == None && !running && !paused
      ensures effects == old(effects) + [Show(WorkoutListScreen)]
    {
      phaseTask := false;
      restTask := None;
      running := false;
      paused := false;
      effects := effects + [Show(WorkoutListScreen)];
    }

    // ----- the rest timer -----

    /** startRest: after the last exercise, stop; otherwise announce the next one and count down the configured rest. */
    method StartRest()
      requires Valid()
      modifies this`phaseTask, this`restTask, this`running, this`paused, this`effects
      ensures Valid()
      ensures exerciseIndex + 1 >= ExerciseCount ==>
        !phaseTask && restTask == None && !running && !paused &&
        effects == old(effects) + [Show(WorkoutListScreen)]
      ensures exerciseIndex + 1 < ExerciseCount ==>
        && restTask == Some(RestCountdown(settings.rest, exerciseIndex + 1))
        && effects == old(effects) + [Show(RestScreen), Speak(RestAnnouncement(Exercises(workoutType)[exerciseIndex + 1]))]
        && phaseTask == old(phaseTask) && running == old(running) && paused == old(paused)
    {
      var nextIndex := exerciseIndex + 1;
      if nextIndex >= ExerciseCount {
        StopTimer();
        return;
      }
      var restTime := settings.rest;
      effects := effects + [Show(RestScreen)];
      effects := effects + [Speak(RestAnnouncement(Exercises(workoutType)[nextIndex]))];
      restTask := None;
      restTask := Some(RestCountdown(restTime, nextIndex));
    }

    /**
     * One firing of the rest interval: one second off, "5 seconds" at exactly
     * 5, and at 0 or below the interval is cleared and the next exercise starts.
     */
    method RestTick()
      requires Valid()
      modifies this`restTask, this`effects, this`exerciseIndex, this`currentWeight, this`reachedFailure,
               this`phase, this`timeRemaining, this`running, this`paused
      ensures Valid()
      ensures old(restTask).None? ==> unchanged(this)
      ensures old(restTask).Some? && old(restTask).value.remaining - 1 > 0 ==>
        && restTask == Some(RestCountdown(old(restTask).value.remaining - 1, old(restTask).value.nextIndex))
        && effects == old(effects) + Spoken(RestCue(old(restTask).value.remaining - 1))
        && exerciseIndex == old(exerciseIndex) && Clock() == old(Clock())
        && running == old(running) && paused == old(paused)
        && currentWeight == old(currentWeight) && reachedFailure == old(reachedFailure)
      ensures old(restTask).Some? && old(restTask).value.remaining - 1 <= 0 ==>
        && restTask == None
        && exerciseIndex == old(restTask).value.nextIndex
        && Clock() == Enter(Prep, settings) && !running && !paused && reachedFailure
        && currentWeight == StoredWeight(store, currentProfile, CurrentExercise())
        && effects == old(effects) + [Show(TimerScreen), Speak(CurrentExercise())]
    {
      if restTask.None? {
        return;
      }
      var r := restTask.value;
      var restTime := r.remaining - 1;
      restTask := Some(RestCountdown(restTime, r.nextIndex));
      if restTime == 5 {
        effects := effects + [Speak(FiveSeconds)];
      }
      if restTime <= 0 {
        restTask := None;
        StartExercise(r.nextIndex);
      }
    }

    /** skipRest: clear the rest interval; start the next exercise if there is one, otherwise stop. */
    method SkipRest()
      requires Valid()
      modifies this`restTask, this`effects, this`exerciseIndex, this`currentWeight, this`reachedFailure,
               this`phase, this`timeRemaining, this`running, this`paused, this`phaseTask
      ensures Valid()
      ensures restTask == None
      ensures old(exerciseIndex) + 1 < ExerciseCount ==>
        && exerciseIndex == old(exerciseIndex) + 1
        && Clock() == Enter(Prep, settings) && !running && !paused && reachedFailure
        && currentWeight == StoredWeight(store, currentProfile, CurrentExercise())
        && effects == old(effects) + [Show(TimerScreen), Speak(CurrentExercise())]
        && phaseTask == old(phaseTask)
      ensures old(exerciseIndex) + 1 >= ExerciseCount ==>
        && exerciseIndex == old(exerciseIndex) && Clock() == old(Clock())
        && currentWeight == old(currentWeight) && reachedFailure == old(reachedFailure)
        && !phaseTask && !running && !paused
        && effects == old(effects) + [Show(WorkoutListScreen)]
    {
      restTask := None;
      var nextIndex := exerciseIndex + 1;
      if nextIndex < ExerciseCount {
        StartExercise(nextIndex);
      } else {
        StopTimer();
      }
    }

    // ----- weight, failure and logging -----

    /** adjustWeight: the weight moves by the amount but never below 0. */
    method AdjustWeight(amount: real)
      requires Valid()
      modifies this`currentWeight
      ensures Valid()
      ensures old(currentWeight) + amount >= 0.0 ==> currentWeight == old(currentWeight) + amount
      ensures old(currentWeight) + amount < 0.0 ==> currentWeight == 0.0
    {
      var w := currentWeight + amount;
      currentWeight := if w > 0.0 then w else 0.0;
    }

    /** toggleFailure: flips the failure flag. */
    method ToggleFailure()
      requires Valid()
      modifies this`reachedFailure
      ensures Valid()
      ensures reachedFailure == !old(reachedFailure)
    {
      reachedFailure := !reachedFailure;
    }

    /**
     * logSet: the weight record is saved, the exercise is marked completed
     * unless it already is, one entry is put in front of the history, and the
     * completion list is saved.
     */
    method LogSet(date: string)
      requires Valid()
      modifies this`completed, this`store
      ensures Valid()
      ensures completed == Include(old(completed), CurrentExercise())
      ensures store == SaveCompletion(
        AddEntry(SaveWeight(old(store), currentProfile, CurrentExercise(), WeightRecord(currentWeight, reachedFailure)),
                 currentProfile, LogEntry(date)),
        currentProfile, workoutType, completed)
    {
      var name := CurrentExercise();
      var saved := SaveWeight(store, currentProfile, name, WeightRecord(currentWeight, reachedFailure));
      if name !in completed {
        completed := completed + [name];
      }
      saved := AddEntry(saved, currentProfile, LogEntry(date));
      store := SaveCompletion(saved, currentProfile, workoutType, completed);
    }

    /** finishWorkout: the completion list is emptied and saved; the weights stay. */
    method FinishWorkout()
      requires Valid()
      modifies this`completed, this`store, this`effects
      ensures Valid()
      ensures completed == [] && Completion(store, currentProfile, workoutType) == []
      ensures store == SaveCompletion(old(store), currentProfile, workoutType, [])
      ensures effects == old(effects) + [Speak(WorkoutCompleteText)]
    {
      completed := [];
      store := SaveCompletion(store, currentProfile, workoutType, completed);
      effects := effects + [Speak(WorkoutCompleteText)];
    }

    // ----- settings -----

    /**
     * adjustPhaseSetting: the setting moves by the amount, clamped to its
     * limits, the other settings stay, and the table is saved. `complete`
     * has no limits, so the lookup of its limits throws before anything is
     * written and nothing changes (ok is false).
     */
    method AdjustPhaseSetting(key: SettingKey, amount: int) returns (ok: bool)
      requires Valid()
      modifies this`settings, this`store
      ensures Valid()
      ensures ok <==> key != PhaseKey(Complete)
      ensures !ok ==> settings == old(settings) && store == old(store)
      ensures ok ==>
        && settings == Put(old(settings), key, Clamp(Get(old(settings), key).value + amount, LimitOf(key).value))
        && store == old(store).(phaseSettings := Some(settings))
    {
      var limit := LimitOf(key);
      if limit.None? {
        return false;
      }
      settings := Put(settings, key, Clamp(Get(settings, key).value + amount, limit.value));
      store := store.(phaseSettings := Some(settings));
      ok := true;
    }
  }
}
