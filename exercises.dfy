/** The exercise table, the default workout and its duration estimate
    (constants/exercises.ts). */
module Exercises {
  import opened Js
  import opened Types

  const DiaphragmaticBreathing := ExerciseConfig(
    "diaphragmatic_breathing", "Diaphragmatic Breathing",
    "Deep belly breathing to support your voice", Breathing,
    Some("Breathe deeply from your diaphragm. Place a hand on your belly and feel it rise as you inhale."),
    Some(60), None, None,
    Some([BreathPhase("Inhale", 4), BreathPhase("Hold", 4), BreathPhase("Exhale", 6)]),
    None, None, None, None)

  const HummingWarmup := ExerciseConfig(
    "humming_warmup", "Humming Warmup",
    "Warm up your vocal cords with gentle humming", Timed,
    Some("Hum at a comfortable pitch. Feel the vibration in your chest and face. Start low and gradually vary your pitch."),
    Some(45), None, None, None, None, Some(true), None, None)

  const PitchGlides := ExerciseConfig(
    "pitch_glides", "Pitch Glides",
    "Slide from high to low pitch smoothly", Reps,
    Some("Start at a comfortable high pitch and slowly glide down to your lowest comfortable pitch. Keep the sound smooth and connected."),
    None, Some(5), Some(8), None, None, Some(true), None, None)

  const ChestVoice := ExerciseConfig(
    "chest_voice", "Chest Voice Activation",
    "Strengthen your deep chest resonance", Phrase,
    Some("Speak each phrase slowly and deliberately. Feel the vibration in your chest, not your throat."),
    None, None, None, None,
    Some(["Hello, my name is...", "Good morning everyone", "I am confident and strong",
          "My voice is powerful", "I speak with authority"]),
    None, None, Some(true))

  const SustainedLow := ExerciseConfig(
    "sustained_low", "Sustained Low Notes",
    "Build endurance at your lower range", Sustained,
    Some("Hold a low \"ah\" sound at a comfortable pitch. Maintain steady airflow and keep the tone relaxed."),
    Some(30), None, None, None, None, Some(true), Some(true), None)

  /** `EXERCISES`, keyed by exercise id. */
  const ExerciseTable: map<string, ExerciseConfig> := map[
    "diaphragmatic_breathing" := DiaphragmaticBreathing,
    "humming_warmup" := HummingWarmup,
    "pitch_glides" := PitchGlides,
    "chest_voice" := ChestVoice,
    "sustained_low" := SustainedLow]

  /** `DEFAULT_WORKOUT`. */
  const DefaultWorkout: seq<string> :=
    ["diaphragmatic_breathing", "humming_warmup", "pitch_glides", "chest_voice", "sustained_low"]

  /** `getExerciseById`: the table entry, or nothing for an unknown id. */
  function GetExerciseById(id: string): (r: Option<ExerciseConfig>)
    ensures r.Some? <==> id in ExerciseTable
    ensures r.Some? ==> r.value == ExerciseTable[id]
  {
    if id in ExerciseTable then Some(ExerciseTable[id]) else None
  }

  /** Every key of the table is the id of its record, so looking a record
      up by its own id finds it. */
  lemma TableKeysAreIds()
    ensures forall k | k in ExerciseTable :: ExerciseTable[k].id == k
    ensures forall k | k in ExerciseTable :: GetExerciseById(ExerciseTable[k].id) == Some(ExerciseTable[k])
  {
  }

  /** The default workout lists five distinct ids, all in the table. */
  lemma DefaultWorkoutWellFormed()
    ensures |DefaultWorkout| == 5
    ensures forall i, j | 0 <= i < j < |DefaultWorkout| :: DefaultWorkout[i] != DefaultWorkout[j]
    ensures forall i | 0 <= i < |DefaultWorkout| :: DefaultWorkout[i] in ExerciseTable
  {
  }

  /** `DEFAULT_WORKOUT.map((id) => EXERCISES[id]).filter(Boolean)` over any ids:
      the table entries of the known ids, in order. */
  function LookUpAll(ids: seq<string>): (r: seq<ExerciseConfig>)
    ensures |r| <= |ids|
    ensures forall e | e in r :: exists id | id in ids :: id in ExerciseTable && ExerciseTable[id] == e
    ensures (forall id | id in ids :: id in ExerciseTable) ==>
      |r| == |ids| && forall i | 0 <= i < |ids| :: r[i] == ExerciseTable[ids[i]]
  {
    if ids == [] then []
    else
      var rest := LookUpAll(ids[1..]);
      assert forall id | id in ids[1..] :: id in ids;
      if ids[0] in ExerciseTable then [ExerciseTable[ids[0]]] + rest else rest
  }

  /** The map-then-filter works id by id and keeps the order of the ids. */
  lemma {:induction false} LookUpAllAppend(a: seq<string>, b: seq<string>)
    ensures LookUpAll(a + b) == LookUpAll(a) + LookUpAll(b)
    decreases |a|
  {
    if a == [] {
      assert a + b == b;
    } else {
      calc {
        LookUpAll(a + b);
        { assert (a + b)[0] == a[0]; assert (a + b)[1..] == a[1..] + b; }
        (if a[0] in ExerciseTable then [ExerciseTable[a[0]]] else []) + LookUpAll(a[1..] + b);
        { LookUpAllAppend(a[1..], b); }
        (if a[0] in ExerciseTable then [ExerciseTable[a[0]]] else []) + (LookUpAll(a[1..]) + LookUpAll(b));
        LookUpAll(a) + LookUpAll(b);
      }
    }
  }

  /** An unknown id contributes nothing, a known one its entry. */
  lemma LookUpOne(id: string)
    ensures LookUpAll([id]) == if id in ExerciseTable then [ExerciseTable[id]] else []
  {
    assert [id][1..] == [];
  }

  /** `getDefaultWorkoutExercises`. */
  function GetDefaultWorkoutExercises(): seq<ExerciseConfig> {
    LookUpAll(DefaultWorkout)
  }

  /** The default workout is the five table entries in `DEFAULT_WORKOUT` order. */
  lemma DefaultWorkoutExercises()
    ensures GetDefaultWorkoutExercises()
         == [DiaphragmaticBreathing, HummingWarmup, PitchGlides, ChestVoice, SustainedLow]
  {
    DefaultWorkoutWellFormed();
    var r := GetDefaultWorkoutExercises();
    assert |r| == 5;
    assert r[0] == ExerciseTable[DefaultWorkout[0]];
  }

  /** The seconds one exercise contributes: its duration, else reps times
      rep duration, else ten seconds per phrase, else nothing. Zero counts as
      unset, as JavaScript truthiness has it. */
  function ExerciseSeconds(e: ExerciseConfig): int {
    if Truthy(e.duration) then e.duration.value
    else if Truthy(e.reps) && Truthy(e.repDuration) then e.reps.value * e.repDuration.value
    else if e.phrases.Some? then |e.phrases.value| * 10
    else 0
  }

  /** The shipped exercises take 60, 45, 40, 50 and 30 seconds. */
  lemma ShippedExerciseSeconds()
    ensures ExerciseSeconds(DiaphragmaticBreathing) == 60
    ensures ExerciseSeconds(HummingWarmup) == 45
    ensures ExerciseSeconds(PitchGlides) == 40
    ensures ExerciseSeconds(ChestVoice) == 50
    ensures ExerciseSeconds(SustainedLow) == 30
  {
  }

  /** The exercise time of a list, summed from the front. */
  function ExerciseTotal(exercises: seq<ExerciseConfig>): int {
    if exercises == [] then 0
    else ExerciseTotal(exercises[..|exercises| - 1]) + ExerciseSeconds(exercises[|exercises| - 1])
  }

  /** The estimate in minutes: exercise time plus ten seconds of rest between
      consecutive exercises, rounded up. */
  function EstimateMinutes(exercises: seq<ExerciseConfig>): int {
    Ceil((ExerciseTotal(exercises) + (|exercises| - 1) * 10) as real / 60.0)
  }

  /** The loop of `getEstimatedWorkoutDuration` over a list of exercises. */
  method EstimateWorkoutMinutes(exercises: seq<ExerciseConfig>) returns (minutes: int)
    ensures minutes == EstimateMinutes(exercises)
    ensures (ExerciseTotal(exercises) + (|exercises| - 1) * 10) as real <= minutes as real * 60.0
    ensures minutes as real * 60.0 < (ExerciseTotal(exercises) + (|exercises| - 1) * 10) as real + 60.0
  {
    var totalSeconds := 0;
    var i := 0;
    while i < |exercises|
      invariant 0 <= i <= |exercises|
      invariant totalSeconds == ExerciseTotal(exercises[..i])
    {
      var exercise := exercises[i];
      if Truthy(exercise.duration) {
        totalSeconds := totalSeconds + exercise.duration.value;
      } else if Truthy(exercise.reps) && Truthy(exercise.repDuration) {
        totalSeconds := totalSeconds + exercise.reps.value * exercise.repDuration.value;
      } else if exercise.phrases.Some? {
        totalSeconds := totalSeconds + |exercise.phrases.value| * 10;
      }
      assert exercises[..i + 1][..i] == exercises[..i];
      i := i + 1;
    }
    assert exercises[..i] == exercises;
    totalSeconds := totalSeconds + (|exercises| - 1) * 10;
    minutes := Ceil(totalSeconds as real / 60.0);
  }

  /** `getEstimatedWorkoutDuration`: the shipped workout takes 265 seconds,
      estimated as 5 minutes. */
  method GetEstimatedWorkoutDuration() returns (minutes: int)
    ensures minutes == 5
  {
    DefaultWorkoutExercises();
    ShippedExerciseSeconds();
    var exercises := GetDefaultWorkoutExercises();
    assert ExerciseTotal(exercises) + (|exercises| - 1) * 10 == 265 by {
      var e := exercises;
      assert e[..1][..0] == [] && e[..2][..1] == e[..1] && e[..3][..2] == e[..2];
      assert e[..4][..3] == e[..3] && e[..5] == e && e[..5][..4] == e[..4];
      assert ExerciseTotal(e[..1]) == 60;
      assert ExerciseTotal(e[..2]) == 105;
      assert ExerciseSeconds(e[2]) == 40;
      assert ExerciseTotal(e[..3]) == 145;
      assert ExerciseTotal(e[..4]) == 195;
    }
    minutes := EstimateWorkoutMinutes(exercises);
  }
}
