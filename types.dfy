/** The app's records (types/index.ts): the user profile, voice measurements,
    exercises and workout sessions, progress counters and the pitch bands. */
module Types {
  import opened Js

  datatype AgeRange = Age18To24 | Age25To34 | Age35To44 | Age45To54 | Age55Plus
  datatype PrimaryGoal = Authority | Social | Dating | Content | SelfImprovement
  datatype VoicePerception = TooHigh | AverageWantDeeper | Inconsistent | Nasal | Unsure
  datatype ExperienceLevel = NoExperience | YouTube | Tried | Experienced

  /** The daily commitment in minutes: one of 5, 10 or 15. */
  type DailyCommitment = m: int | m == 5 || m == 10 || m == 15 witness 5

  datatype UserProfile = UserProfile(
    id: string,
    firstName: string,
    ageRange: Option<AgeRange>,
    primaryGoal: Option<PrimaryGoal>,
    voicePerception: Option<VoicePerception>,
    experienceLevel: Option<ExperienceLevel>,
    dailyCommitment: Option<DailyCommitment>,
    onboardingCompleted: bool,
    onboardingStep: int,
    createdAt: string,
    baselinePitch: Option<real>,
    targetPitch: Option<real>)

  /** The profile every new or reset user starts from. */
  const DefaultUserProfile := UserProfile(
    "", "", None, None, None, None, None, false, 0, "", None, None)

  datatype MeasurementContext = Onboarding | QuickMeasure | ExerciseContext | WorkoutContext

  /** A stored pitch measurement; `timestamp` is its instant in milliseconds. */
  datatype VoiceMeasurement = VoiceMeasurement(
    id: string,
    timestamp: int,
    pitchHz: real,
    pitchMin: real,
    pitchMax: real,
    recordingUri: string,
    duration: real,
    context: MeasurementContext)

  datatype ExerciseType = Breathing | Timed | Reps | Phrase | Sustained

  datatype BreathPhase = BreathPhase(name: string, duration: int)

  datatype ExerciseConfig = ExerciseConfig(
    id: string,
    name: string,
    description: string,
    kind: ExerciseType,
    instruction: Option<string>,
    duration: Option<int>,
    reps: Option<int>,
    repDuration: Option<int>,
    phases: Option<seq<BreathPhase>>,
    phrases: Option<seq<string>>,
    showPitchMeter: Option<bool>,
    showTimer: Option<bool>,
    showRecordPlayback: Option<bool>)

  datatype ExerciseResult = ExerciseResult(
    exerciseId: string,
    completed: bool,
    duration: int,
    pitchReadings: Option<seq<real>>,
    recordingUri: Option<string>)

  /** A workout; `date` is its start instant in milliseconds, durations are seconds. */
  datatype WorkoutSession = WorkoutSession(
    id: string,
    date: int,
    completed: bool,
    exercises: seq<ExerciseResult>,
    totalDuration: int,
    pitchBefore: Option<real>,
    pitchAfter: Option<real>)

  /** Streaks and totals; `lastWorkoutDate` is a day number. */
  datatype UserProgress = UserProgress(
    currentStreak: int,
    longestStreak: int,
    totalWorkouts: int,
    totalMinutes: int,
    lastWorkoutDate: Option<int>,
    baselinePitch: real,
    targetPitch: real,
    measurementIds: seq<string>)

  /** The progress every user starts from. */
  const DefaultUserProgress := UserProgress(0, 0, 0, 0, None, 0.0, 0.0, [])

  /** The streak invariant the progress screen relies on. */
  predicate StreakInvariant(p: UserProgress) {
    0 <= p.currentStreak <= p.longestStreak
  }

  datatype PitchBand = PitchBand(min: int, max: int, title: string)

  datatype PitchRanges = PitchRanges(
    veryDeep: PitchBand, deep: PitchBand, average: PitchBand, higher: PitchBand)

  /** The reference bands of adult male speaking pitch, in Hz. */
  const PitchRangesTable := PitchRanges(
    PitchBand(60, 100, "Very Deep"),
    PitchBand(100, 130, "Deep"),
    PitchBand(130, 165, "Average"),
    PitchBand(165, 200, "Higher"))

  /** Consecutive bands share their boundary and every band is non-empty. */
  predicate Contiguous(r: PitchRanges) {
    && r.veryDeep.min < r.veryDeep.max == r.deep.min
    && r.deep.min < r.deep.max == r.average.min
    && r.average.min < r.average.max == r.higher.min
    && r.higher.min < r.higher.max
  }

  lemma PitchRangesContiguous()
    ensures Contiguous(PitchRangesTable)
    ensures PitchRangesTable.veryDeep.min == 60 && PitchRangesTable.higher.max == 200
  {
  }

  /** The default progress has no streak, no workouts, no date and no measurements,
      so it satisfies the streak invariant. */
  lemma DefaultProgressIsEmpty()
    ensures StreakInvariant(DefaultUserProgress)
    ensures DefaultUserProgress.currentStreak == DefaultUserProgress.longestStreak == 0
    ensures DefaultUserProgress.totalWorkouts == DefaultUserProgress.totalMinutes == 0
    ensures DefaultUserProgress.lastWorkoutDate == None && DefaultUserProgress.measurementIds == []
  {
  }

  /** The default profile has not been onboarded and has no pitch yet. */
  lemma DefaultProfileIsFresh()
    ensures !DefaultUserProfile.onboardingCompleted && DefaultUserProfile.onboardingStep == 0
    ensures DefaultUserProfile.baselinePitch == None && DefaultUserProfile.targetPitch == None
  {
  }
}
