/** The workout state of the app (context/WorkoutContext.tsx): the active
    session, the exercise index, the history and the progress counters with the
    daily streak. Instants are milliseconds since the epoch; a stored workout
    date is a UTC day number. */
module WorkoutContext {
  import opened Js
  import opened Types
  import AsyncStorage

  /** Milliseconds in a day. */
  const DayMs := 86400000

  /** The UTC day of an instant: `toISOString().split('T')[0]` as a day number. */
  function DayOf(t: int): int {
    t / DayMs
  }

  /** `Math.floor((now - new Date(lastDay)) / day)`: a day-number date parses
      to midnight UTC, so the difference is the number of UTC days between. */
  lemma DaysDiffIsDayDifference(now: int, lastDay: int)
    ensures (now - lastDay * DayMs) / DayMs == DayOf(now) - lastDay
  {
    var q, r := now / DayMs, now % DayMs;
    assert now == q * DayMs + r && 0 <= r < DayMs;
    assert now - lastDay * DayMs == (q - lastDay) * DayMs + r;
  }

  /** The streak after a workout on the day of `now` when the previous one
      was on `last`: the first workout starts a streak of 1, the same day
      keeps it, the next day extends it, and a longer gap restarts it. */
  function NextStreak(current: int, last: Option<int>, now: int): (s: int)
    ensures last.None? ==> s == 1
    ensures last.Some? && DayOf(now) == last.value ==> s == current
    ensures last.Some? && DayOf(now) == last.value + 1 ==> s == current + 1
    ensures last.Some? && DayOf(now) != last.value && DayOf(now) != last.value + 1 ==> s == 1
  {
    if last.Some? then
      var daysDiff := (now - last.value * DayMs) / DayMs;
      DaysDiffIsDayDifference(now, last.value);
      if daysDiff == 0 then current
      else if daysDiff == 1 then current + 1
      else 1
    else 1
  }

  /** `updateStreakInternal`: the new streak, the longest streak raised to it,
      and today as the last workout day; nothing else changes. */
  function StreakUpdate(p: UserProgress, now: int): (r: UserProgress)
    ensures r.currentStreak == NextStreak(p.currentStreak, p.lastWorkoutDate, now)
    ensures r.longestStreak == if r.currentStreak > p.longestStreak then r.currentStreak else p.longestStreak
    ensures r.lastWorkoutDate == Some(DayOf(now))
    ensures r.(currentStreak := p.currentStreak, longestStreak := p.longestStreak, lastWorkoutDate := p.lastWorkoutDate) == p
  {
    var newStreak := NextStreak(p.currentStreak, p.lastWorkoutDate, now);
    p.(currentStreak := newStreak,
       longestStreak := if newStreak >= p.longestStreak then newStreak else p.longestStreak,
       lastWorkoutDate := Some(DayOf(now)))
  }

  /** The streak update keeps `0 <= currentStreak <= longestStreak`, never
      lowers the longest streak, and makes it at least the current one. */
  lemma StreakUpdateKeepsInvariant(p: UserProgress, now: int)
    requires StreakInvariant(p)
    ensures StreakInvariant(StreakUpdate(p, now))
    ensures StreakUpdate(p, now).longestStreak >= p.longestStreak
  {
  }

  /** The minutes a finished session adds: its seconds over 60, rounded. */
  function SessionMinutes(totalDuration: int): int {
    Round(totalDuration as real / 60.0)
  }

  /** The counters `finishWorkout` updates before the streak. */
  function AddWorkout(p: UserProgress, totalDuration: int): (r: UserProgress)
    ensures r.totalWorkouts == p.totalWorkouts + 1
    ensures r.totalMinutes == p.totalMinutes + SessionMinutes(totalDuration)
    ensures r.(totalWorkouts := p.totalWorkouts, totalMinutes := p.totalMinutes) == p
  {
    p.(totalWorkouts := p.totalWorkouts + 1,
       totalMinutes := p.totalMinutes + SessionMinutes(totalDuration))
  }

  /** The progress after `finishWorkout` as written: the counters, today as
      the last workout day, and then the streak update on that progress. */
  function FinishProgressAsWritten(p: UserProgress, totalDuration: int, now: int): (r: UserProgress)
    ensures r.totalWorkouts == p.totalWorkouts + 1
    ensures r.totalMinutes == p.totalMinutes + SessionMinutes(totalDuration)
    ensures r.lastWorkoutDate == Some(DayOf(now))
    ensures r.currentStreak == p.currentStreak
  {
    StreakUpdate(AddWorkout(p, totalDuration).(lastWorkoutDate := Some(DayOf(now))), now)
  }

  /** As written, the streak update always sees a gap of zero days, so a
      finished workout never changes the current streak. */
  lemma FinishAsWrittenNeverMovesStreak(p: UserProgress, totalDuration: int, now: int)
    ensures FinishProgressAsWritten(p, totalDuration, now).currentStreak == p.currentStreak
  {
  }

  /** The smallest case: the first workout of a new user leaves both streaks
      at 0 instead of starting a streak of 1. */
  lemma FirstWorkoutStreakStaysZero(totalDuration: int, now: int)
    ensures FinishProgressAsWritten(DefaultUserProgress, totalDuration, now).currentStreak == 0
    ensures FinishProgressAsWritten(DefaultUserProgress, totalDuration, now).longestStreak == 0
    ensures FinishProgressAsWritten(DefaultUserProgress, totalDuration, now).totalWorkouts == 1
  {
  }

  /** The progress after `finishWorkout` with the streak computed from the
      previous workout day, as the streak rule intends. */
  function FinishProgress(p: UserProgress, totalDuration: int, now: int): (r: UserProgress)
    ensures r.totalWorkouts == p.totalWorkouts + 1
    ensures r.totalMinutes == p.totalMinutes + SessionMinutes(totalDuration)
    ensures r.lastWorkoutDate == Some(DayOf(now))
    ensures r.currentStreak == NextStreak(p.currentStreak, p.lastWorkoutDate, now)
    ensures r.baselinePitch == p.baselinePitch && r.targetPitch == p.targetPitch
    ensures r.measurementIds == p.measurementIds
  {
    StreakUpdate(AddWorkout(p, totalDuration), now)
  }

  /** With the previous day, a first workout starts a streak of 1, a workout
      on the next day extends the streak, another one on the same day keeps
      it, and the invariant holds throughout. */
  lemma FinishProgressStreaks(p: UserProgress, totalDuration: int, now: int)
    requires StreakInvariant(p)
    ensures StreakInvariant(FinishProgress(p, totalDuration, now))
    ensures FinishProgress(p, totalDuration, now).longestStreak >= p.longestStreak
    ensures p.lastWorkoutDate.None? ==> FinishProgress(p, totalDuration, now).currentStreak == 1
    ensures p.lastWorkoutDate == Some(DayOf(now) - 1) ==>
      FinishProgress(p, totalDuration, now).currentStreak == p.currentStreak + 1
    ensures p.lastWorkoutDate == Some(DayOf(now)) ==>
      FinishProgress(p, totalDuration, now).currentStreak == p.currentStreak
  {
    StreakUpdateKeepsInvariant(AddWorkout(p, totalDuration), now);
  }

  /** Workouts on consecutive days build a streak of 2 from a new user. */
  lemma TwoDaysInARow(d1: int, d2: int, now: int)
    ensures var first := FinishProgress(DefaultUserProgress, d1, now - DayMs);
      FinishProgress(first, d2, now).currentStreak == 2
      && FinishProgress(first, d2, now).longestStreak == 2
  {
    assert DayOf(now - DayMs) == DayOf(now) - 1 by {
      DaysDiffIsDayDifference(now, 1);
    }
  }

  /** The session `completeExercise` produces: the result appended and its
      duration added. */
  function AppendResult(s: WorkoutSession, result: ExerciseResult): (r: WorkoutSession)
    ensures r.exercises == s.exercises + [result]
    ensures r.totalDuration == s.totalDuration + result.duration
    ensures r.(exercises := s.exercises, totalDuration := s.totalDuration) == s
  {
    s.(exercises := s.exercises + [result], totalDuration := s.totalDuration + result.duration)
  }

  /** The total duration of a session built from an empty one is the sum of
      its results' durations. */
  function DurationSum(results: seq<ExerciseResult>): int {
    if results == [] then 0 else DurationSum(results[..|results| - 1]) + results[|results| - 1].duration
  }

  /** Appending results one by one keeps `totalDuration` equal to the sum of
      the exercise durations. */
  lemma AppendResultKeepsTotal(s: WorkoutSession, result: ExerciseResult)
    requires s.totalDuration == DurationSum(s.exercises)
    ensures AppendResult(s, result).totalDuration == DurationSum(AppendResult(s, result).exercises)
  {
    var e := s.exercises + [result];
    assert e[..|e| - 1] == s.exercises;
  }

  /** The session `finishWorkout` stores: completed, with the given pitch
      after (absent when none is given). */
  function CompletedSession(s: WorkoutSession, pitchAfter: Option<real>): (r: WorkoutSession)
    ensures r.completed && r.pitchAfter == pitchAfter
    ensures r.(completed := s.completed, pitchAfter := s.pitchAfter) == s
  {
    s.(completed := true, pitchAfter := pitchAfter)
  }

  /** `getWorkoutsThisWeek`: the completed sessions on or after the start of
      the week (an instant supplied by the caller). */
  function WorkoutsSince(history: seq<WorkoutSession>, startOfWeek: int): (n: nat)
    ensures n <= |history|
    ensures n == |history| <==> forall i | 0 <= i < |history| :: history[i].completed && history[i].date >= startOfWeek
  {
    if history == [] then 0
    else
      var rest := WorkoutsSince(history[1..], startOfWeek);
      assert forall i | 1 <= i < |history| :: history[i] == history[1..][i - 1];
      if history[0].date >= startOfWeek && history[0].completed then 1 + rest else rest
  }

  /** Counting distributes over a list's parts. */
  lemma {:induction false} WorkoutsSinceAppend(a: seq<WorkoutSession>, b: seq<WorkoutSession>, startOfWeek: int)
    ensures WorkoutsSince(a + b, startOfWeek) == WorkoutsSince(a, startOfWeek) + WorkoutsSince(b, startOfWeek)
    decreases |a|
  {
    if a != [] {
      assert (a + b)[1..] == a[1..] + b;
      WorkoutsSinceAppend(a[1..], b, startOfWeek);
    } else {
      assert a + b == b;
    }
  }

  /** `getTodaysWorkout`: the first completed session started on the day of `now`. */
  function TodaysWorkout(history: seq<WorkoutSession>, now: int): (r: Option<WorkoutSession>)
    ensures r.Some? ==> r.value in history && r.value.completed && DayOf(r.value.date) == DayOf(now)
    ensures r.None? <==> forall s | s in history :: !(s.completed && DayOf(s.date) == DayOf(now))
  {
    if history == [] then None
    else if DayOf(history[0].date) == DayOf(now) && history[0].completed then Some(history[0])
    else
      assert forall s | s in history :: s == history[0] || s in history[1..];
      TodaysWorkout(history[1..], now)
  }

  /** `find` stops at the first qualifying session: every session before the
      one returned was incomplete or from another day. */
  lemma {:induction false} TodaysWorkoutIsFirst(history: seq<WorkoutSession>, now: int)
    requires TodaysWorkout(history, now).Some?
    ensures exists i | 0 <= i < |history| ::
      && history[i] == TodaysWorkout(history, now).value
      && forall j | 0 <= j < i :: !(history[j].completed && DayOf(history[j].date) == DayOf(now))
  {
    if DayOf(history[0].date) == DayOf(now) && history[0].completed {
      assert history[0] == TodaysWorkout(history, now).value;
    } else {
      TodaysWorkoutIsFirst(history[1..], now);
      var i :| 0 <= i < |history[1..]|
        && history[1..][i] == TodaysWorkout(history[1..], now).value
        && forall j | 0 <= j < i :: !(history[1..][j].completed && DayOf(history[1..][j].date) == DayOf(now));
      assert history[i + 1] == TodaysWorkout(history, now).value;
      assert forall j | 0 <= j < i + 1 :: !(history[j].completed && DayOf(history[j].date) == DayOf(now)) by {
        forall j | 0 <= j < i + 1
          ensures !(history[j].completed && DayOf(history[j].date) == DayOf(now))
        {
          if j > 0 { assert history[j] == history[1..][j - 1]; }
        }
      }
    }
  }

  /** A workout finished today counts as this week's and as today's. */
  lemma FinishedWorkoutCounts(history: seq<WorkoutSession>, s: WorkoutSession, startOfWeek: int, now: int)
    requires s.completed && s.date >= startOfWeek && DayOf(s.date) == DayOf(now)
    ensures WorkoutsSince(history + [s], startOfWeek) == WorkoutsSince(history, startOfWeek) + 1
    ensures TodaysWorkout(history + [s], now).Some?
  {
    WorkoutsSinceAppend(history, [s], startOfWeek);
    assert s in history + [s];
  }

  /** The workout provider's state. */
  class WorkoutState {
    var workoutHistory: seq<WorkoutSession>
    var progress: UserProgress
    var activeSession: Option<WorkoutSession>
    var currentExerciseIndex: int

    /** The streak invariant of the progress. */
    ghost predicate Valid()
      reads this
    {
      StreakInvariant(progress)
    }

    constructor ()
      ensures workoutHistory == [] && progress == DefaultUserProgress
      ensures activeSession == None && currentExerciseIndex == 0
      ensures Valid()
    {
      workoutHistory := [];
      progress := DefaultUserProgress;
      activeSession := None;
      currentExerciseIndex := 0;
    }

    /** `loadData`: the stored history, and the stored progress or the default. */
    method LoadData(store: AsyncStorage.Store)
      requires store.GetUserProgress().Some? ==> StreakInvariant(store.GetUserProgress().value)
      modifies this
      ensures Valid()
      ensures workoutHistory == store.GetWorkoutHistory()
      ensures progress == if store.GetUserProgress().Some? then store.GetUserProgress().value else DefaultUserProgress
      ensures activeSession == old(activeSession) && currentExerciseIndex == old(currentExerciseIndex)
    {
      workoutHistory := store.GetWorkoutHistory();
      var saved := store.GetUserProgress();
      progress := if saved.Some? then saved.value else DefaultUserProgress;
    }

    /** `startWorkout`: a fresh, empty, uncompleted session becomes active. */
    method StartWorkout(id: string, now: int) returns (session: WorkoutSession)
      modifies this
      ensures session == WorkoutSession(id, now, false, [], 0, None, None)
      ensures activeSession == Some(session) && currentExerciseIndex == 0
      ensures workoutHistory == old(workoutHistory) && progress == old(progress)
    {
      session := WorkoutSession(id, now, false, [], 0, None, None);
      activeSession := Some(session);
      currentExerciseIndex := 0;
    }

    /** `advanceToNextExercise`. */
    method AdvanceToNextExercise()
      modifies this
      ensures currentExerciseIndex == old(currentExerciseIndex) + 1
      ensures activeSession == old(activeSession)
      ensures workoutHistory == old(workoutHistory) && progress == old(progress)
    {
      currentExerciseIndex := currentExerciseIndex + 1;
    }

    /** `completeExercise`: without an active session nothing happens. */
    method CompleteExercise(result: ExerciseResult)
      modifies this
      ensures old(activeSession).None? ==> activeSession == None
      ensures old(activeSession).Some? ==> activeSession == Some(AppendResult(old(activeSession).value, result))
      ensures currentExerciseIndex == old(currentExerciseIndex)
      ensures workoutHistory == old(workoutHistory) && progress == old(progress)
    {
      if activeSession.None? {
        return;
      }
      activeSession := Some(AppendResult(activeSession.value, result));
    }

    /** `finishWorkout`, with the streak computed from the previous workout day. */
    method FinishWorkout(pitchAfter: Option<real>, now: int, store: AsyncStorage.Store)
      requires Valid()
      modifies this, store
      ensures Valid()
      ensures old(activeSession).None? ==>
        && workoutHistory == old(workoutHistory) && progress == old(progress)
        && activeSession == None && currentExerciseIndex == old(currentExerciseIndex)
        && store.data == old(store.data)
      ensures old(activeSession).Some? ==>
        var completed := CompletedSession(old(activeSession).value, pitchAfter);
        && workoutHistory == old(workoutHistory) + [completed]
        && activeSession == None && currentExerciseIndex == 0
        && progress == FinishProgress(old(progress), completed.totalDuration, now)
        && store.data == AsyncStorage.WithSession(old(store.data), completed)[AsyncStorage.UserProgressKey := AsyncStorage.ProgressValue(progress)]
    {
      if activeSession.None? {
        return;
      }
      var completedSession := CompletedSession(activeSession.value, pitchAfter);
      store.SaveWorkoutSession(completedSession);
      workoutHistory := workoutHistory + [completedSession];
      activeSession := None;
      currentExerciseIndex := 0;
      var newProgress := AddWorkout(progress, completedSession.totalDuration);
      store.SaveUserProgress(newProgress);
      progress := newProgress;
      UpdateStreakInternal(newProgress, now, store);
      FinishProgressStreaks(old(progress), completedSession.totalDuration, now);
    }

    /** `cancelWorkout`. */
    method CancelWorkout()
      modifies this
      ensures activeSession == None && currentExerciseIndex == 0
      ensures workoutHistory == old(workoutHistory) && progress == old(progress)
    {
      activeSession := None;
      currentExerciseIndex := 0;
    }

    /** `updateStreakInternal`: store and adopt the streak update of `current`. */
    method UpdateStreakInternal(current: UserProgress, now: int, store: AsyncStorage.Store)
      modifies this, store
      ensures progress == StreakUpdate(current, now)
      ensures store.data == old(store.data)[AsyncStorage.UserProgressKey := AsyncStorage.ProgressValue(progress)]
      ensures workoutHistory == old(workoutHistory) && activeSession == old(activeSession)
      ensures currentExerciseIndex == old(currentExerciseIndex)
    {
      var updatedProgress := StreakUpdate(current, now);
      store.SaveUserProgress(updatedProgress);
      progress := updatedProgress;
    }

    /** `updateStreak`: the streak update of the current progress. */
    method UpdateStreak(now: int, store: AsyncStorage.Store)
      requires Valid()
      modifies this, store
      ensures Valid()
      ensures progress == StreakUpdate(old(progress), now)
      ensures workoutHistory == old(workoutHistory) && activeSession == old(activeSession)
    {
      StreakUpdateKeepsInvariant(progress, now);
      UpdateStreakInternal(progress, now, store);
    }

    /** `getWorkoutsThisWeek`. */
    function GetWorkoutsThisWeek(startOfWeek: int): (n: nat)
      reads this
      ensures n <= |workoutHistory|
      ensures n == |workoutHistory| <==> forall s | s in workoutHistory :: s.completed && s.date >= startOfWeek
    {
      WorkoutsSince(workoutHistory, startOfWeek)
    }

    /** `getTodaysWorkout`. */
    function GetTodaysWorkout(now: int): (r: Option<WorkoutSession>)
      reads this
      ensures r.Some? ==> r.value in workoutHistory && r.value.completed && DayOf(r.value.date) == DayOf(now)
      ensures r.None? <==> forall s | s in workoutHistory :: !(s.completed && DayOf(s.date) == DayOf(now))
    {
      TodaysWorkout(workoutHistory, now)
    }

    /** `clearHistory`: both stored keys removed, history and progress reset
      and the active session dropped; the exercise index is left alone. */
    method ClearHistory(store: AsyncStorage.Store)
      modifies this, store
      ensures store.data == old(store.data) - {AsyncStorage.WorkoutHistoryKey} - {AsyncStorage.UserProgressKey}
      ensures workoutHistory == [] && progress == DefaultUserProgress && activeSession == None
      ensures currentExerciseIndex == old(currentExerciseIndex)
      ensures Valid()
    {
      store.ClearWorkoutHistory();
      store.ClearUserProgress();
      workoutHistory := [];
      progress := DefaultUserProgress;
      activeSession := None;
    }
  }
}
