/** The per-exercise screen of a workout (app/workout/exercise.tsx): a
    one-second countdown, repetitions of a timed rep, phrases read one after
    the other, and the hand-over of the finished exercise to the workout. */
module ExerciseScreen {
  import opened Js
  import opened Types
  import Exercises
  import WorkoutContext

  /** Where the screen sends the user next. */
  datatype Route = StayOnExercise | ToRest | ToComplete

  /** The countdown an exercise starts with: its duration, else the length of
      one repetition; an exercise with neither has no countdown. */
  function InitialTime(ex: ExerciseConfig): (t: int)
    ensures Truthy(ex.duration) ==> t == ex.duration.value
    ensures !Truthy(ex.duration) && Truthy(ex.reps) && Truthy(ex.repDuration) ==> t == ex.repDuration.value
    ensures !Truthy(ex.duration) && !(Truthy(ex.reps) && Truthy(ex.repDuration)) ==> t == 0
  {
    if Truthy(ex.duration) then ex.duration.value
    else if Truthy(ex.reps) && Truthy(ex.repDuration) then ex.repDuration.value
    else 0
  }

  /** What an expired countdown leads to: the next repetition while reps
      remain, or `None` when the exercise is done. */
  function NextRep(ex: ExerciseConfig, rep: int): (r: Option<int>)
    ensures r.Some? <==> Truthy(ex.reps) && rep < ex.reps.value
    ensures r.Some? ==> r.value == rep + 1
  {
    if Truthy(ex.reps) && rep < ex.reps.value then Some(rep + 1) else None
  }

  /** The countdown of a further repetition; eight seconds when unset. */
  function RepTime(ex: ExerciseConfig): (t: int)
    ensures Truthy(ex.repDuration) ==> t == ex.repDuration.value
    ensures !Truthy(ex.repDuration) ==> t == 8
  {
    if Truthy(ex.repDuration) then ex.repDuration.value else 8
  }

  /** The number of countdown expirations, from repetition `rep`, until the
      exercise is done. */
  function ExpirationsUntilDone(ex: ExerciseConfig, rep: int): nat
    decreases if ex.reps.Some? then ex.reps.value - rep else 0
  {
    match NextRep(ex, rep)
    case None => 1
    case Some(next) => 1 + ExpirationsUntilDone(ex, next)
  }

  lemma {:induction false} ExpirationsFrom(ex: ExerciseConfig, rep: int)
    requires Truthy(ex.reps) && 1 <= rep <= ex.reps.value
    ensures ExpirationsUntilDone(ex, rep) == ex.reps.value - rep + 1
    decreases ex.reps.value - rep
  {
    if rep < ex.reps.value {
      ExpirationsFrom(ex, rep + 1);
    }
  }

  /** A rep exercise is done after exactly `reps` expirations, any other
      exercise after the first one. */
  lemma RepsCompleteAfterReps(ex: ExerciseConfig)
    ensures Truthy(ex.reps) && ex.reps.value >= 1 ==> ExpirationsUntilDone(ex, 1) == ex.reps.value
    ensures !(Truthy(ex.reps) && ex.reps.value > 1) ==> ExpirationsUntilDone(ex, 1) == 1
  {
    if Truthy(ex.reps) && ex.reps.value >= 1 {
      ExpirationsFrom(ex, 1);
    }
  }

  /** The duration recorded for a finished exercise: the same seconds the
      workout estimate counts when the exercise has a duration or timed reps,
      and a flat thirty seconds otherwise. */
  function RecordedDuration(ex: ExerciseConfig): (d: int)
    ensures Truthy(ex.duration) || (Truthy(ex.reps) && Truthy(ex.repDuration)) ==> d == Exercises.ExerciseSeconds(ex)
    ensures !(Truthy(ex.duration) || (Truthy(ex.reps) && Truthy(ex.repDuration))) ==> d == 30
  {
    if Truthy(ex.duration) then ex.duration.value
    else if Truthy(ex.reps) && Truthy(ex.repDuration) then ex.reps.value * ex.repDuration.value
    else 30
  }

  /** The phrase exercise is recorded as 30 seconds although the workout
      estimate counts it as 50; the other shipped exercises agree. */
  lemma RecordedAgainstEstimate()
    ensures RecordedDuration(Exercises.ChestVoice) == 30
    ensures Exercises.ExerciseSeconds(Exercises.ChestVoice) == 50
    ensures forall ex | ex in Exercises.GetDefaultWorkoutExercises() && ex != Exercises.ChestVoice ::
      RecordedDuration(ex) == Exercises.ExerciseSeconds(ex)
  {
    Exercises.DefaultWorkoutExercises();
  }

  /** The result handed to the workout for a finished exercise. */
  function ResultOf(ex: ExerciseConfig): (r: ExerciseResult)
    ensures r.exerciseId == ex.id && r.completed && r.duration == RecordedDuration(ex)
    ensures r.pitchReadings.None? && r.recordingUri.None?
  {
    ExerciseResult(ex.id, true, RecordedDuration(ex), None, None)
  }

  /** Where the next-phrase button leads: the next phrase while one remains,
      `None` when the exercise is done. */
  function NextPhrase(phrases: seq<string>, index: int): (r: Option<int>)
    ensures r.Some? <==> index < |phrases| - 1
    ensures r.Some? ==> r.value == index + 1
  {
    if index < |phrases| - 1 then Some(index + 1) else None
  }

  /** The number of presses, from phrase `index`, until the exercise is done. */
  function PressesUntilDone(phrases: seq<string>, index: int): nat
    decreases |phrases| - index
  {
    match NextPhrase(phrases, index)
    case None => 1
    case Some(next) => 1 + PressesUntilDone(phrases, next)
  }

  lemma {:induction false} PressesFrom(phrases: seq<string>, index: int)
    requires 0 <= index < |phrases|
    ensures PressesUntilDone(phrases, index) == |phrases| - index
    decreases |phrases| - index
  {
    if index < |phrases| - 1 {
      PressesFrom(phrases, index + 1);
    }
  }

  /** Reading `n` phrases takes exactly `n` presses (an empty list one). */
  lemma PhrasesCompleteAfterEach(phrases: seq<string>)
    ensures phrases != [] ==> PressesUntilDone(phrases, 0) == |phrases|
    ensures phrases == [] ==> PressesUntilDone(phrases, 0) == 1
  {
    if phrases != [] {
      PressesFrom(phrases, 0);
    }
  }

  /** The screen's state for the exercise at the workout's current index. */
  class ExerciseScreenState {
    const exercise: ExerciseConfig
    const isLastExercise: bool
    var isActive: bool
    var timeRemaining: int
    var currentRep: int
    var currentPhraseIndex: int
    var route: Route

    /** The repetition never passes the number of reps, and the phrase index
        stays within the phrases. */
    ghost predicate Valid()
      reads this
    {
      && (currentRep == 1 || (exercise.reps.Some? && 1 <= currentRep <= exercise.reps.value))
      && (currentPhraseIndex == 0 || (exercise.phrases.Some? && 0 <= currentPhraseIndex < |exercise.phrases.value|))
    }

    /** Mounting the screen on exercise `index` of the default workout, with
        the initialising effect applied. */
    constructor (index: nat)
      requires index < |Exercises.GetDefaultWorkoutExercises()|
      ensures exercise == Exercises.GetDefaultWorkoutExercises()[index]
      ensures isLastExercise <==> index == |Exercises.GetDefaultWorkoutExercises()| - 1
      ensures timeRemaining == InitialTime(exercise)
      ensures currentRep == 1 && currentPhraseIndex == 0 && isActive
      ensures route == StayOnExercise
      ensures Valid()
    {
      var exercises := Exercises.GetDefaultWorkoutExercises();
      exercise := exercises[index];
      isLastExercise := index == |exercises| - 1;
      timeRemaining := 0;
      var ex := exercises[index];
      if Truthy(ex.duration) {
        timeRemaining := ex.duration.value;
      } else if Truthy(ex.reps) && Truthy(ex.repDuration) {
        timeRemaining := ex.repDuration.value;
      }
      currentRep := 1;
      currentPhraseIndex := 0;
      isActive := true;
      route := StayOnExercise;
    }

    /** What completing the exercise does, from the previous state: the
        result appended to the active session (none stays none), the route to
        the complete screen after the last exercise and otherwise to the rest
        screen with the workout advanced once, history and progress untouched. */
    twostate predicate CompletedInto(workout: WorkoutContext.WorkoutState)
      reads this, workout
    {
      && workout.activeSession == (if old(workout.activeSession).Some?
           then Some(WorkoutContext.AppendResult(old(workout.activeSession).value, ResultOf(exercise)))
           else None)
      && route == (if isLastExercise then ToComplete else ToRest)
      && workout.currentExerciseIndex == old(workout.currentExerciseIndex) + (if isLastExercise then 0 else 1)
      && workout.workoutHistory == old(workout.workoutHistory) && workout.progress == old(workout.progress)
    }

    /** `handleCompleteExercise`: record the result, then go to the complete
        screen after the last exercise, or advance the workout once and rest. */
    method HandleCompleteExercise(workout: WorkoutContext.WorkoutState)
      modifies this, workout
      ensures CompletedInto(workout)
      ensures timeRemaining == old(timeRemaining) && currentRep == old(currentRep)
      ensures currentPhraseIndex == old(currentPhraseIndex) && isActive == old(isActive)
    {
      workout.CompleteExercise(ExerciseResult(exercise.id, true, RecordedDuration(exercise), None, None));
      if isLastExercise {
        route := ToComplete;
      } else {
        workout.AdvanceToNextExercise();
        route := ToRest;
      }
    }

    /** `handleTimerComplete`: the next repetition, or the end of the exercise. */
    method HandleTimerComplete(workout: WorkoutContext.WorkoutState)
      requires Valid()
      modifies this, workout
      ensures Valid()
      ensures NextRep(exercise, old(currentRep)).Some? ==>
        currentRep == NextRep(exercise, old(currentRep)).value && timeRemaining == RepTime(exercise)
        && route == old(route) && unchanged(workout)
      ensures NextRep(exercise, old(currentRep)).None? ==>
        currentRep == old(currentRep) && timeRemaining == old(timeRemaining) && CompletedInto(workout)
      ensures currentPhraseIndex == old(currentPhraseIndex) && isActive == old(isActive)
    {
      if Truthy(exercise.reps) && currentRep < exercise.reps.value {
        currentRep := currentRep + 1;
        timeRemaining := if Truthy(exercise.repDuration) then exercise.repDuration.value else 8;
        return;
      }
      HandleCompleteExercise(workout);
    }

    /** One second of the countdown: nothing while paused or run out, else one
        second less, and at the last second the countdown's expiry. */
    method Tick(workout: WorkoutContext.WorkoutState)
      requires Valid()
      modifies this, workout
      ensures Valid()
      ensures !old(isActive) || old(timeRemaining) <= 0 ==> unchanged(this) && unchanged(workout)
      ensures old(isActive) && old(timeRemaining) > 1 ==>
        timeRemaining == old(timeRemaining) - 1 && currentRep == old(currentRep)
        && route == old(route) && unchanged(workout)
      ensures old(isActive) && old(timeRemaining) == 1 && NextRep(exercise, old(currentRep)).Some? ==>
        currentRep == old(currentRep) + 1 && timeRemaining == RepTime(exercise)
        && route == old(route) && unchanged(workout)
      ensures old(isActive) && old(timeRemaining) == 1 && NextRep(exercise, old(currentRep)).None? ==>
        timeRemaining == 0 && currentRep == old(currentRep) && CompletedInto(workout)
      ensures currentPhraseIndex == old(currentPhraseIndex) && isActive == old(isActive)
    {
      if !isActive || timeRemaining <= 0 {
        return;
      }
      if timeRemaining <= 1 {
        timeRemaining := 0;
        HandleTimerComplete(workout);
      } else {
        timeRemaining := timeRemaining - 1;
      }
    }

    /** `handleNextPhrase`: nothing without phrases, the next phrase while one
        remains, else the end of the exercise. */
    method HandleNextPhrase(workout: WorkoutContext.WorkoutState)
      requires Valid()
      modifies this, workout
      ensures Valid()
      ensures exercise.phrases.None? ==> unchanged(this) && unchanged(workout)
      ensures exercise.phrases.Some? && NextPhrase(exercise.phrases.value, old(currentPhraseIndex)).Some? ==>
        currentPhraseIndex == old(currentPhraseIndex) + 1 && route == old(route) && unchanged(workout)
      ensures exercise.phrases.Some? && NextPhrase(exercise.phrases.value, old(currentPhraseIndex)).None? ==>
        currentPhraseIndex == old(currentPhraseIndex) && CompletedInto(workout)
      ensures timeRemaining == old(timeRemaining) && currentRep == old(currentRep) && isActive == old(isActive)
    {
      if exercise.phrases.None? {
        return;
      }
      if currentPhraseIndex < |exercise.phrases.value| - 1 {
        currentPhraseIndex := currentPhraseIndex + 1;
      } else {
        HandleCompleteExercise(workout);
      }
    }

    /** `handleSkip`: the exercise ends at once. */
    method HandleSkip(workout: WorkoutContext.WorkoutState)
      requires Valid()
      modifies this, workout
      ensures Valid()
      ensures CompletedInto(workout)
      ensures timeRemaining == old(timeRemaining) && currentRep == old(currentRep)
      ensures currentPhraseIndex == old(currentPhraseIndex) && isActive == old(isActive)
    {
      HandleCompleteExercise(workout);
    }
  }
}
