# voicemax domain model in Dafny

voicemax is a React Native app for voice-deepening training. This project models the app-side domain logic that decides what the user sees and what is stored. The native openSMILE analysis engine is not part of it. The model covers:

- **Voice classification and scoring.** Pitch and quality categories, the clinical-range table, jitter/shimmer/HNR statuses, baseline-versus-current comparison, rule-driven training recommendations, pitch projections and the target pitch, the vocal-tract-length estimate and the population percentile.
- **Workouts.** The exercise table and the default workout with its duration estimate. The workout state machine: start, complete an exercise, advance, finish, cancel; workout and minute counters; the daily streak with its longest-streak invariant. The per-exercise screen: countdown, repetitions, phrases.
- **Measurement history.** Appending, filtering by context, the rounded average pitch, and the trend that compares the three oldest with the three newest measurements.
- **The profile.** Partial updates merged over the stored profile, the onboarding setters, reset, and the baseline/target pitch pair.
- **Storage.**
  - The key-value store, as a map from storage key to stored value. JSON serialisation is the identity.
  - Recording file names and the timestamp parsed back from them.
  - The keep-newest-N retention rule.
- **The setup script.** Its slug and URL-scheme sanitisers.
- **UI formatters and clamps.** The `m:ss` timer, progress fractions and percentages, gauge colours and labels, the VTL rating, and the three-step recording protocol.

Modelling conventions:

- JavaScript numbers are `real` where the app does arithmetic on measurements and `int` for counters, seconds and milliseconds.
- `Math.round` is `Floor(x + 0.5)`.
- A missing value and `0` are falsy, as in JavaScript.
- Instants are milliseconds. Calendar days are UTC day numbers, `t / 86400000`.
- Objects whose fields the app updates in place are Dafny classes: the three contexts, the key-value store, the recordings folder and the two screens. Their methods state the new state through functions whose properties are proved as lemmas.

## Model

| member | source | states |
|---|---|---|
| Types.PitchRangesContiguous | types/index.ts:144-149 | the four pitch bands run from 60 to 200 Hz, each band's max equal to the next band's min |
| Types.DefaultProgressIsEmpty | types/index.ts:124-133 | default progress has zero streaks, workouts and minutes, no last date and no measurement ids, so current ≤ longest holds from the start |
| Types.DefaultProfileIsFresh | types/index.ts:37-50 | the default profile has not completed onboarding, is at step 0 and has no baseline or target pitch |
| OpensmileTypes.CategorizePitch | modules/expo-opensmile/src/ExpoOpensmile.types.ts:201-206 | very deep below 100 Hz, deep on [100,130), average on [130,165), higher from 165, each as an if-and-only-if |
| OpensmileTypes.CategorizePitchMonotone | modules/expo-opensmile/src/ExpoOpensmile.types.ts:201-206 | a higher pitch never yields a deeper category |
| OpensmileTypes.CategorizeQuality | modules/expo-opensmile/src/ExpoOpensmile.types.ts:211-216 | excellent from 80, good on [60,80), average on [40,60), needs work below 40, each as an if-and-only-if |
| OpensmileTypes.CategorizeQualityMonotone | modules/expo-opensmile/src/ExpoOpensmile.types.ts:211-216 | a higher score never yields a worse category |
| OpensmileTypes.ClinicalRangesOrdered | modules/expo-opensmile/src/ExpoOpensmile.types.ts:221-252 | jitter and shimmer maxima increase 1 < 2 < 3; HNR minima increase 7 < 12 < 18; the male f0 bands tile [60,200] |
| OpensmileTypes.ClinicalAverageNarrowerThanCategory | modules/expo-opensmile/src/ExpoOpensmile.types.ts:201-246 | 160 Hz is "higher" in the clinical f0 table but "average" for the pitch category |
| Opensmile.EffectiveConfig | modules/expo-opensmile/src/index.ts:64-72 | without a config the defaults apply (frame 25 ms, step 10 ms, f0 50–400 Hz, both flags off); each supplied field overrides its default |
| Opensmile.EffectiveConfigComplete | modules/expo-opensmile/src/index.ts:64-72 | every field of the effective config is set, and merging it again changes nothing |
| Opensmile.VtlFormula | modules/expo-opensmile/src/index.ts:96-110 | the estimate is the mean of 35000/(4·F1) and 35000/(F3−F1), and F2 does not affect it |
| Opensmile.EstimateVocalTractLength | modules/expo-opensmile/src/index.ts:96-110 | for 0 < F1 < F3 the estimate is positive |
| Opensmile.VtlDecreasesInF3 | modules/expo-opensmile/src/index.ts:102-109 | with F1 fixed, raising F3 above F1 lowers the estimate |
| Opensmile.PitchComparison | modules/expo-opensmile/src/index.ts:128-133 | exactly one comparison text per pitch, at thresholds 85, 100, 115 and 130 Hz |
| Opensmile.GetVoicePercentile | modules/expo-opensmile/src/index.ts:115-136 | with exp abstracted as a positive value, the percentile lies in [0,100] and comes with the pitch's comparison text |
| Opensmile.PercentileAtMean | modules/expo-opensmile/src/index.ts:119-126 | 120 Hz has z = 0 and, with exp(0) = 1, percentile 50 |
| Opensmile.PercentileMonotone | modules/expo-opensmile/src/index.ts:119-126 | a larger exponential term never lowers the percentile |
| PitchDetector.MaleVoiceRangesArePitchRanges | services/audio/pitch-detector.ts:7-12 | the detector's male ranges equal the shared pitch-range table |
| PitchDetector.ValidPitchIsAnalysisRange | services/audio/pitch-detector.ts:23-25 | valid exactly on the analysis config's f0 range [50,400] Hz; every categorised pitch is valid, and 55 and 300 Hz are valid yet uncategorised |
| PitchDetector.GetVoiceCategory | services/audio/pitch-detector.ts:28-44 | no category exactly when the pitch is below 60 or above 200 Hz |
| PitchDetector.BandsPartitionRange | services/audio/pitch-detector.ts:31-42 | within [60,200] the four bands are disjoint and cover the range (200 is higher), and each band agrees with the pitch category |
| PitchDetector.GetVoiceDescription | services/audio/pitch-detector.ts:47-62 | the generic text is returned exactly when there is no category |
| PitchDetector.CalculateProjections | services/audio/pitch-detector.ts:65-79 | the drops are capped at 12 and 25 Hz; for a non-negative baseline, three-month ≤ one-month ≤ the rounded baseline |
| PitchDetector.ProjectionCaps | services/audio/pitch-detector.ts:72-78 | one month is 5% lower below 240 Hz and 12 Hz lower above it; three months is 12% lower, or 25 Hz lower once 12% exceeds 25 Hz |
| VoiceAnalyzer.JitterStatus | services/audio/voice-analyzer.ts:84-89 | excellent ≤1, good ≤2, normal ≤3, else high, with the thresholds read from the clinical table |
| VoiceAnalyzer.ShimmerStatus | services/audio/voice-analyzer.ts:94-99 | excellent ≤1.0, good up to the clinical good max (2.0), normal up to the normal max (3.0), else high |
| VoiceAnalyzer.HnrStatusOf | services/audio/voice-analyzer.ts:104-109 | excellent ≥18, good ≥12, normal ≥7, else low |
| VoiceAnalyzer.StatusesMonotone | services/audio/voice-analyzer.ts:84-109 | jitter and shimmer share thresholds; all three statuses are monotone in their input |
| VoiceAnalyzer.RecordingConfig | services/audio/voice-analyzer.ts:125-132 | the analysis config sets frame 25/10 ms and f0 50–400 Hz, and each include flag is on only if the option is explicitly true |
| VoiceAnalyzer.RecordingConfigIsEffective | services/audio/voice-analyzer.ts:125-132 | that config survives the engine's default merge unchanged; without options it is the engine default |
| VoiceAnalyzer.CompareVoiceAnalyses | services/audio/voice-analyzer.ts:236-283 | every change is current − baseline; pitch improved iff it dropped, overall improved iff it rose; the summary chosen for each of the four flag combinations |
| VoiceAnalyzer.CompareWithItself | services/audio/voice-analyzer.ts:250-270 | comparing an analysis with itself gives zero changes, no improvement and the keep-practicing summary |
| VoiceAnalyzer.CompareAntisymmetric | services/audio/voice-analyzer.ts:250-259 | swapping baseline and current negates the changes, and both directions never both improve |
| VoiceAnalyzer.GetTrainingRecommendations | services/audio/voice-analyzer.ts:311-358 | the pushes build exactly the rule messages in order (depth, resonance, power, control, VTL, style), or the two defaults |
| VoiceAnalyzer.RecommendationsBounds | services/audio/voice-analyzer.ts:314-355 | the list has between 1 and 11 entries, so it is never empty |
| VoiceAnalyzer.RecommendationsDefaultsIffNoRule | services/audio/voice-analyzer.ts:314-355 | the defaults appear exactly when depth ≥70, resonance ≥60, power ≥50, control ≥60, VTL ≥16 and the category is neither higher nor average |
| Exercises.GetExerciseById | constants/exercises.ts:71-73 | the table entry exactly for known ids, nothing otherwise |
| Exercises.TableKeysAreIds | constants/exercises.ts:3-61 | every table key is its exercise's id, so looking an exercise up by its id returns it |
| Exercises.DefaultWorkoutWellFormed | constants/exercises.ts:63-69 | the default workout lists five distinct ids, all in the table |
| Exercises.LookUpAll | constants/exercises.ts:75-77 | the map/filter keeps only table entries and, when every id is known, returns them in workout order |
| Exercises.LookUpAllAppend | constants/exercises.ts:75-77 | looking up a concatenation is the concatenation of the look-ups, so ids are kept in order |
| Exercises.LookUpOne | constants/exercises.ts:75-77 | an unknown id contributes nothing and a known one exactly its table entry |
| Exercises.DefaultWorkoutExercises | constants/exercises.ts:63-77 | the default workout is the five shipped exercises in order |
| Exercises.ShippedExerciseSeconds | constants/exercises.ts:3-92 | the shipped exercises count 60, 45, 40 (5×8), 50 (5 phrases×10) and 30 seconds |
| Exercises.EstimateWorkoutMinutes | constants/exercises.ts:79-98 | the loop sums each exercise's seconds, adds 10 s of rest between exercises and rounds the minutes up |
| Exercises.GetEstimatedWorkoutDuration | constants/exercises.ts:79-98 | the default workout is estimated at 5 minutes |
| WorkoutContext.DaysDiffIsDayDifference | context/WorkoutContext.tsx:160-166 | the day gap the streak uses is the difference of the two day numbers |
| WorkoutContext.NextStreak | context/WorkoutContext.tsx:153-178 | no last date → 1; same day → unchanged; next day → +1; any other gap → 1 |
| WorkoutContext.StreakUpdate | context/WorkoutContext.tsx:153-188 | the new streak, longest = max(new streak, old longest), last date = today, nothing else changed |
| WorkoutContext.StreakUpdateKeepsInvariant | context/WorkoutContext.tsx:179-184 | 0 ≤ current ≤ longest is preserved and the longest streak never decreases |
| WorkoutContext.AddWorkout | context/WorkoutContext.tsx:130-137 | one more workout and the session's rounded minutes; nothing else changed |
| WorkoutContext.FinishProgressAsWritten | context/WorkoutContext.tsx:130-143 | as written: one more workout, its minutes, today as last date, and the current streak unchanged |
| WorkoutContext.FinishAsWrittenNeverMovesStreak | context/WorkoutContext.tsx:130-166 | as written, finishing a workout never changes the current streak |
| WorkoutContext.FirstWorkoutStreakStaysZero | context/WorkoutContext.tsx:130-143 | as written, a new user's first workout leaves both streaks at 0 |
| WorkoutContext.FinishProgress | context/WorkoutContext.tsx:114-146 | the corrected finish: one more workout, its minutes, today as last date, and the streak stepped from the previous workout day |
| WorkoutContext.FinishProgressStreaks | context/WorkoutContext.tsx:153-188 | the corrected finish keeps the streak invariant: first workout → 1, next day → +1, same day → unchanged |
| WorkoutContext.TwoDaysInARow | context/WorkoutContext.tsx:114-188 | two workouts on consecutive days give a streak of 2 |
| WorkoutContext.AppendResult | context/WorkoutContext.tsx:99-112 | the result is appended and its duration added to the total; nothing else changes |
| WorkoutContext.AppendResultKeepsTotal | context/WorkoutContext.tsx:99-112 | the session total stays the sum of its exercises' durations |
| WorkoutContext.CompletedSession | context/WorkoutContext.tsx:118-124 | the finished session is marked completed with the pitch after; nothing else changes |
| WorkoutContext.WorkoutsSince | context/WorkoutContext.tsx:194-204 | counts completed sessions since the week's start; all are counted exactly when all qualify |
| WorkoutContext.WorkoutsSinceAppend | context/WorkoutContext.tsx:194-204 | the count over a concatenation is the sum of the counts |
| WorkoutContext.TodaysWorkout | context/WorkoutContext.tsx:206-215 | a completed session of today's date if one exists, else none |
| WorkoutContext.TodaysWorkoutIsFirst | context/WorkoutContext.tsx:206-215 | the session found is the first qualifying one: every earlier session is incomplete or from another day |
| WorkoutContext.FinishedWorkoutCounts | context/WorkoutContext.tsx:194-215 | a finished session of today raises the week's count by one and is found as today's workout |
| WorkoutContext.WorkoutState.LoadData | context/WorkoutContext.tsx:61-75 | loads the stored history and the stored progress, or the default progress; the streak invariant holds afterwards when the stored progress keeps it |
| WorkoutContext.WorkoutState.StartWorkout | context/WorkoutContext.tsx:81-93 | an uncompleted empty session with total 0 becomes active and the index resets to 0 |
| WorkoutContext.WorkoutState.AdvanceToNextExercise | context/WorkoutContext.tsx:95-97 | the index grows by exactly one |
| WorkoutContext.WorkoutState.CompleteExercise | context/WorkoutContext.tsx:99-112 | no-op without a session; otherwise the result is appended to the active session and nothing else changes |
| WorkoutContext.WorkoutState.FinishWorkout | context/WorkoutContext.tsx:114-146 | no-op without a session; otherwise history grows by the completed session, it is stored, progress is finished, the session is cleared and the index reset |
| WorkoutContext.WorkoutState.CancelWorkout | context/WorkoutContext.tsx:148-151 | the session is cleared and the index reset; nothing else changes |
| WorkoutContext.WorkoutState.UpdateStreakInternal | context/WorkoutContext.tsx:153-188 | progress becomes the streak update of the given progress and is stored |
| WorkoutContext.WorkoutState.UpdateStreak | context/WorkoutContext.tsx:190-192 | applies the streak update to the current progress, keeping the invariant |
| WorkoutContext.WorkoutState.GetWorkoutsThisWeek | context/WorkoutContext.tsx:194-204 | at most the history's length, and all of it exactly when every session is completed and on or after the week's start |
| WorkoutContext.WorkoutState.GetTodaysWorkout | context/WorkoutContext.tsx:206-215 | a completed session of today from the history, and none exactly when no session qualifies |
| WorkoutContext.WorkoutState.ClearHistory | context/WorkoutContext.tsx:217-222 | both keys are removed, history emptied, progress reset to the default, the session cleared; the index is left as it was |
| VoiceContext.ByContext | context/VoiceContext.tsx:98-103 | exactly the measurements of that context |
| VoiceContext.ByContextAppend | context/VoiceContext.tsx:98-103 | a new measurement joins the end of its own context's list and no other |
| VoiceContext.PitchSumBounds | context/VoiceContext.tsx:105-110 | with every pitch in [lo,hi], the sum lies in [n·lo, n·hi] |
| VoiceContext.AveragePitch | context/VoiceContext.tsx:105-110 | no average exactly when there are no measurements |
| VoiceContext.AverageBetween | context/VoiceContext.tsx:105-110 | with pitches between two whole numbers, so is the rounded average |
| VoiceContext.TrendOf | context/VoiceContext.tsx:131-138 | a drop of more than 5 Hz is improving, a rise of more than 5 Hz declining, anything else stable |
| VoiceContext.SortedByDate | context/VoiceContext.tsx:119-123 | a permutation of the measurements ordered by timestamp, oldest first |
| VoiceContext.PitchTrend | context/VoiceContext.tsx:112-139 | no trend exactly below three measurements |
| VoiceContext.ThreeMeasurementsAreStable | context/VoiceContext.tsx:125-138 | with exactly three measurements the trend is stable |
| VoiceContext.TrendComparesOldestWithNewest | context/VoiceContext.tsx:119-138 | the sorted copy is a permutation; its first three are no newer than its last three, and the trend compares their means |
| VoiceContext.VoiceState.LoadMeasurements | context/VoiceContext.tsx:51-63 | the stored list and its latest entry are loaded |
| VoiceContext.VoiceState.AddMeasurement | context/VoiceContext.tsx:69-96 | the new measurement is stored, appended at the end and made the latest |
| VoiceContext.VoiceState.ClearMeasurements | context/VoiceContext.tsx:141-145 | the stored key is removed, the list emptied and latest cleared |
| UserContext.MergeIdentityAndIdempotent | context/UserContext.tsx:76-83 | an empty update changes nothing; applying an update twice equals applying it once |
| UserContext.Merge | context/UserContext.tsx:76-83 | every supplied field takes the update's value, and an empty update changes nothing |
| UserContext.MergeComposes | context/UserContext.tsx:76-83 | two updates in a row equal one update in which the later value of each field wins |
| UserContext.MergeOfSatisfied | context/UserContext.tsx:76-83 | an update whose values the profile already has changes nothing, so merging keeps every field not supplied |
| UserContext.OnboardingUpdatesAreNarrow | context/UserContext.tsx:85-94 | setting the step changes only the step; completing onboarding changes only the flag |
| UserContext.TargetPitch | context/UserContext.tsx:150-157 | the target is at most 25 Hz (plus rounding) below the baseline and, for a non-negative baseline, not above it |
| UserContext.TargetIsThreeMonthProjection | context/UserContext.tsx:153 | the stored target equals the three-month projection |
| UserContext.FreshProfile | context/UserContext.tsx:96-105 | the default profile with only a fresh id and creation time |
| UserContext.UserState.LoadUser | context/UserContext.tsx:54-74 | the stored profile, or a fresh one that is then stored |
| UserContext.UserState.UpdateUser | context/UserContext.tsx:76-83 | the profile becomes the merge and is stored |
| UserContext.UserState.SetOnboardingStep | context/UserContext.tsx:85-90 | only the step changes |
| UserContext.UserState.CompleteOnboarding | context/UserContext.tsx:92-94 | only the flag changes, and onboarding then reads as completed |
| UserContext.UserState.ResetUser | context/UserContext.tsx:96-105 | the stored profile is replaced by a fresh default one, not completed |
| UserContext.UserState.SetFirstName | context/UserContext.tsx:108-113 | only the first name changes, and exactly the new profile is stored |
| UserContext.UserState.SetAgeRange | context/UserContext.tsx:115-120 | only the age range changes, and exactly the new profile is stored |
| UserContext.UserState.SetPrimaryGoal | context/UserContext.tsx:122-127 | only the goal changes, and exactly the new profile is stored |
| UserContext.UserState.SetVoicePerception | context/UserContext.tsx:129-134 | only the voice perception changes, and exactly the new profile is stored |
| UserContext.UserState.SetExperienceLevel | context/UserContext.tsx:136-141 | only the experience level changes, and exactly the new profile is stored |
| UserContext.UserState.SetDailyCommitment | context/UserContext.tsx:143-148 | only the daily commitment changes, and exactly the new profile is stored |
| UserContext.UserState.SetBaselinePitch | context/UserContext.tsx:150-157 | the baseline and its derived target are set and stored |
| AsyncStorage.KeyName | services/storage/async-storage.ts:11-17 | every key carries the `@voicemax:` prefix |
| AsyncStorage.KeyNamesDistinct | services/storage/async-storage.ts:11-17 | different keys have different names |
| AsyncStorage.LatestIn | services/storage/async-storage.ts:77-81 | the last stored measurement, and none exactly for an empty list |
| AsyncStorage.FindIndex | services/storage/async-storage.ts:101-110 | the first index with that id, or −1 exactly when none has it |
| AsyncStorage.SaveMeasurementAppends | services/storage/async-storage.ts:69-81 | saving appends exactly one measurement, which becomes the latest; every other key is unchanged |
| AsyncStorage.SaveSessionAppends | services/storage/async-storage.ts:93-99 | saving appends exactly one session; earlier sessions and the other keys are unchanged |
| AsyncStorage.UpdateSessionReplacesFirst | services/storage/async-storage.ts:101-110 | the first session with the same id is replaced, the length and every other session are kept; without a match nothing is written |
| AsyncStorage.ClearAllEmpties | services/storage/async-storage.ts:130-137 | after clearing, the gets return none or [] and the settings entry survives |
| AsyncStorage.SaveThenGet | services/storage/async-storage.ts:49-127 | a profile or progress saved is read back; after its clear, none |
| AsyncStorage.Store.GetUserProfile | services/storage/async-storage.ts:49-51 | the profile stored under its key, and none exactly when no profile is stored |
| AsyncStorage.Store.GetVoiceMeasurements | services/storage/async-storage.ts:62-67 | the list stored under its key, or [] when none is stored |
| AsyncStorage.Store.GetLatestMeasurement | services/storage/async-storage.ts:77-81 | the last stored measurement, and none exactly when the list is empty |
| AsyncStorage.Store.GetWorkoutHistory | services/storage/async-storage.ts:88-91 | the history stored under its key, or [] when none is stored |
| AsyncStorage.Store.GetUserProgress | services/storage/async-storage.ts:117-119 | the progress stored under its key, and none exactly when no progress is stored |
| AsyncStorage.Store.SaveUserProfile | services/storage/async-storage.ts:53-55 | writes the profile key only |
| AsyncStorage.Store.ClearUserProfile | services/storage/async-storage.ts:57-59 | removes the profile key only |
| AsyncStorage.Store.SaveVoiceMeasurement | services/storage/async-storage.ts:69-75 | the store becomes the one with the measurement appended |
| AsyncStorage.Store.ClearVoiceMeasurements | services/storage/async-storage.ts:83-85 | removes the measurements key only |
| AsyncStorage.Store.SaveWorkoutSession | services/storage/async-storage.ts:93-99 | the store becomes the one with the session appended |
| AsyncStorage.Store.UpdateWorkoutSession | services/storage/async-storage.ts:101-110 | the store becomes the one with the first matching session replaced |
| AsyncStorage.Store.ClearWorkoutHistory | services/storage/async-storage.ts:112-114 | removes the history key only |
| AsyncStorage.Store.SaveUserProgress | services/storage/async-storage.ts:121-123 | writes the progress key only |
| AsyncStorage.Store.ClearUserProgress | services/storage/async-storage.ts:125-127 | removes the progress key only |
| AsyncStorage.Store.ClearAllData | services/storage/async-storage.ts:130-137 | removes the four data keys and keeps settings |
| FileStorage.LastSegment | services/storage/file-storage.ts:108-112 | the part after the last '/', a suffix without '/' |
| FileStorage.LastSegmentIsWholeTail | services/storage/file-storage.ts:108-112 | the segment reaches back to the last '/', or to the start when there is none |
| FileStorage.FirstMatch | services/storage/file-storage.ts:108-112 | the leftmost position of `_<digits>.`, or none exactly when there is no match |
| FileStorage.ExtractTimestamp | services/storage/file-storage.ts:108-112 | 0 when the last segment has no `_<digits>.` match |
| FileStorage.FilenameShape | services/storage/file-storage.ts:21 | a file name is context, '_', the timestamp's digits, then ".wav" |
| FileStorage.RecordingFilename | services/storage/file-storage.ts:21 | the context, '_', digits that read back as the timestamp, then ".wav" |
| FileStorage.FirstMatchIsSuffix | services/storage/file-storage.ts:21-112 | in a file name with a plain context, the first match is the '_' before the timestamp |
| FileStorage.ExtractTimestampRoundTrip | services/storage/file-storage.ts:15-112 | the timestamp parsed from a saved recording's URI is the one it was saved with, when the context has no '/' and no `_<digits>.` |
| FileStorage.ExtractTimestampNoMatch | services/storage/file-storage.ts:108-112 | a last segment without '_' parses to 0 |
| FileStorage.AllRecordings | services/storage/file-storage.ts:62-71 | every listed name is prefixed with the recordings folder |
| FileStorage.RecordingsByContext | services/storage/file-storage.ts:74-79 | a URI is kept exactly when it contains `<context>_` |
| FileStorage.RecordingsByContextAppend | services/storage/file-storage.ts:74-79 | the filter keeps order and multiplicity: a URI added at the end joins the end of the result exactly when it contains `<context>_`, and an empty listing gives nothing |
| FileStorage.SavedRecordingFoundByContext | services/storage/file-storage.ts:15-79 | a saved recording is listed under its context |
| FileStorage.SliceStart | services/storage/file-storage.ts:91-99 | `slice` start semantics: a start inside the list is kept, others are clamped |
| FileStorage.RecordingsToDelete | services/storage/file-storage.ts:82-99 | nothing when at most keepCount recordings exist; otherwise only recordings from the list, each at most as often as listed |
| FileStorage.CleanupCount | services/storage/file-storage.ts:82-99 | nothing is deleted when at most keepCount exist; otherwise exactly count − keepCount are, all from the listing |
| FileStorage.CleanupKeepsNewest | services/storage/file-storage.ts:91-99 | the deleted files are the sorted tail, and every kept timestamp is at least every deleted one |
| FileStorage.Without | services/storage/file-storage.ts:96-99 | the folder keeps exactly the files not deleted |
| FileStorage.RecordingsFolder.SaveRecording | services/storage/file-storage.ts:15-30 | returns the folder URI of `<context>_<now>.wav` and lists that file |
| FileStorage.RecordingsFolder.CleanupOldRecordings | services/storage/file-storage.ts:82-105 | the folder loses exactly the files the retention rule selects |
| SetupProject.Lower | scripts/setup-project.js:82 | ASCII upper case becomes lower case, every other character is kept |
| SetupProject.SlugBeforeTrim | scripts/setup-project.js:81-88 | before the trim the slug holds only `[a-z0-9-]` with no double dash, so the trim changes nothing |
| SetupProject.ToSlug | scripts/setup-project.js:81-88 | the slug holds only `[a-z0-9-]` and never two dashes in a row |
| SetupProject.ToScheme | scripts/setup-project.js:90-94 | the scheme holds only `[a-z0-9]` and is no longer than the name |
| SetupProject.Idempotent | scripts/setup-project.js:81-94 | applying either sanitiser twice equals applying it once |
| SetupProject.LowerAlnumUnchanged | scripts/setup-project.js:81-94 | a name of lower-case letters and digits is returned unchanged by both |
| SetupProject.SlugWithoutDashesIsScheme | scripts/setup-project.js:81-94 | deleting the dashes from the slug gives the scheme |
| ExerciseScreen.InitialTime | app/workout/exercise.tsx:41-50 | the countdown starts at the duration, else the rep duration of a rep exercise, else 0 |
| ExerciseScreen.NextRep | app/workout/exercise.tsx:70-81 | another repetition exactly while reps remain, numbered one higher |
| ExerciseScreen.RepTime | app/workout/exercise.tsx:76 | the rep duration, or 8 seconds when unset |
| ExerciseScreen.RepsCompleteAfterReps | app/workout/exercise.tsx:74-80 | a rep exercise completes after exactly `reps` expirations, any other after one |
| ExerciseScreen.RecordedDuration | app/workout/exercise.tsx:88-91 | with a duration or timed reps, the seconds the estimate counts; otherwise 30 |
| ExerciseScreen.RecordedAgainstEstimate | app/workout/exercise.tsx:88-91 | the phrase exercise is recorded as 30 s but estimated at 50 s; the other shipped exercises agree |
| ExerciseScreen.ResultOf | app/workout/exercise.tsx:85-92 | a completed result for the exercise's id with the recorded duration |
| ExerciseScreen.NextPhrase | app/workout/exercise.tsx:103-112 | the next phrase exactly while one remains |
| ExerciseScreen.PhrasesCompleteAfterEach | app/workout/exercise.tsx:103-112 | n phrases take exactly n presses |
| ExerciseScreen.ExerciseScreenState.constructor | app/workout/exercise.tsx:31-50 | mounting on an exercise sets its countdown, rep 1, phrase 0, active |
| ExerciseScreen.ExerciseScreenState.HandleCompleteExercise | app/workout/exercise.tsx:83-101 | records the result (no session stays no session); on the last exercise goes to the complete screen without advancing, otherwise advances exactly once and rests; history and progress untouched |
| ExerciseScreen.ExerciseScreenState.HandleTimerComplete | app/workout/exercise.tsx:70-81 | the next rep with a fresh countdown and the workout untouched, or the completion `handleCompleteExercise` performs; the rep never passes `reps` |
| ExerciseScreen.ExerciseScreenState.Tick | app/workout/exercise.tsx:53-68 | no-op when inactive or at 0; else one second less, and at the last second the next rep or the full completion |
| ExerciseScreen.ExerciseScreenState.HandleNextPhrase | app/workout/exercise.tsx:103-112 | no-op without phrases; the next phrase while one remains, else the full completion; the index stays in bounds |
| ExerciseScreen.ExerciseScreenState.HandleSkip | app/workout/exercise.tsx:114-117 | the exercise completes at once: result appended, route and workout index as after the exercise's end, history and progress untouched |
| RecordingScreen.RecordingStepsWellFormed | app/measure/recording.tsx:23-51 | three steps numbered 1–3, each with 0 < min ≤ max; only the last is the sustained sound |
| RecordingScreen.TooShortAlert | app/measure/recording.tsx:143-152 | the too-short message names the sound or the phrase, by step kind |
| RecordingScreen.MoveOut | services/storage/file-storage.ts:24-27 | a move succeeds exactly when its source exists, and removes it |
| RecordingScreen.StopResultAsWritten | app/measure/recording.tsx:105-158 | as written: too short → same step; steps 0–1 → next step; a long-enough last step → the error path |
| RecordingScreen.LastStepFailsAsWritten | app/measure/recording.tsx:122-141 | as written, a long-enough last recording always ends in the error path |
| RecordingScreen.StopResult | app/measure/recording.tsx:105-158 | the corrected outcome: too short → same step; steps 0–1 → next step; last step → analysis |
| RecordingScreen.StopResultCorrectsLastStep | app/measure/recording.tsx:105-158 | the corrected and as-written outcomes agree except on the last step, where only the corrected one analyses |
| RecordingScreen.FormatDuration | app/measure/recording.tsx:217-220 | whole seconds followed by "s"; a minus sign exactly for negative input |
| RecordingScreen.FormatDurationRoundTrip | app/measure/recording.tsx:217-220 | reading the digits back gives floor(ms/1000) |
| RecordingScreen.RecordingScreenState.CanStopMeansAccepted | app/measure/recording.tsx:222 | the stop button is enabled exactly when a recording of the shown length would not be asked for again |
| RecordingScreen.RecordingScreenState.StartRecording | app/measure/recording.tsx:82-103 | when the recorder starts, recording from zero; nothing changes if it fails |
| RecordingScreen.RecordingScreenState.UpdateDuration | app/measure/recording.tsx:92-95 | the elapsed time is shown |
| RecordingScreen.RecordingScreenState.StopRecording | app/measure/recording.tsx:105-158 | no-op when not recording; too short → same step with level and duration reset and the alert; steps 0–1 → +1 with the button disabled again; last step → saved once and sent to analysis; each branch leaves the other fields alone; the step never passes 2 |
| RecordingScreen.RecordingScreenState.HandleRecordPress | app/measure/recording.tsx:200-208 | while recording and below the minimum, nothing changes; at the minimum, the outcome and new state of `stopRecording`; otherwise the new state of `startRecording` |
| ResultsScreen.PitchPercentage | app/measure/results.tsx:59-65 | in [0,100]: 0 up to 60 Hz, 100 from 200 Hz, linear in between |
| ResultsScreen.PitchPercentageMonotone | app/measure/results.tsx:62-65 | a higher pitch never sits further left |
| ResultsScreen.LevelOf | app/measure/results.tsx:174-175 | the shared caption thresholds 70 and 40 |
| ResultsScreen.LevelMonotone | app/measure/results.tsx:174-226 | a higher score never gets a lower caption |
| ResultsScreen.DepthLabel | app/measure/results.tsx:174-175 | Deep, Average or Higher by level |
| ResultsScreen.ResonanceLabel | app/measure/results.tsx:191-192 | Full, Moderate or Thin by level |
| ResultsScreen.PowerLabel | app/measure/results.tsx:208-209 | Strong, Moderate or Soft by level |
| ResultsScreen.ControlLabel | app/measure/results.tsx:225-226 | Steady, Moderate or Variable by level |
| ResultsScreen.ResultsRecommendations | app/measure/results.tsx:26-42 | empty exactly when no analysis parsed, otherwise the analyser's recommendations |
| TimerDisplay.JsRem | components/exercise/timer-display.tsx:24 | JavaScript's remainder: a % d for a ≥ 0 and −((−a) % d) below 0, so it takes the sign of the dividend |
| TimerDisplay.PadStart2 | components/exercise/timer-display.tsx:25 | short strings are left-padded with '0' to two characters |
| TimerDisplay.FormatTime | components/exercise/timer-display.tsx:22-26 | at least four characters, with a leading minus sign exactly for negative seconds |
| TimerDisplay.FormatTimeRoundTrip | components/exercise/timer-display.tsx:22-26 | for s ≥ 0 the text ends in ':' and two digits below 60, and minutes·60 + seconds read back is s |
| TimerDisplay.Progress | components/exercise/timer-display.tsx:28 | 0 without a non-zero total; otherwise progress·total = total − seconds |
| TimerDisplay.ProgressBounds | components/exercise/timer-display.tsx:28 | for 0 ≤ seconds ≤ total, progress is in [0,1]: 0 at the start, 1 at the end |
| ProgressBar.Progress | components/progress/progress-bar.tsx:21 | the percentage lies in [0,100] |
| ProgressBar.ProgressShape | components/progress/progress-bar.tsx:20-21 | with a positive total: 0 at or below step 0, 100 at or past the total, the exact share in between |
| ProgressBar.ProgressMonotone | components/progress/progress-bar.tsx:21 | more steps never shorten the bar |
| QualityGauge.ValueColor | components/measure/quality-gauge.tsx:25-30 | success from 81, brand from 61, alert from 41, else error |
| QualityGauge.StatusLabel | components/measure/quality-gauge.tsx:32-37 | Excellent from 81, Good from 61, Average from 41, else Needs Work |
| QualityGauge.ColorMatchesLabel | components/measure/quality-gauge.tsx:25-37 | each label always comes with its colour |
| QualityGauge.ColorMonotone | components/measure/quality-gauge.tsx:25-37 | a higher score never gets a worse colour |
| QualityGauge.ClampedValue | components/measure/quality-gauge.tsx:40 | in [0,100], and the value itself when already in range |
| QualityGauge.GaugeDiffersFromCategoryAtBoundaries | components/measure/quality-gauge.tsx:32-37 | at 80, 60 and 40 the gauge's word is one level below the quality category |
| FormantCard.GetVtlRating | components/measure/formant-card.tsx:18-22 | Deep/success from 17 cm, Average/brand from 15 cm, else Higher/alert |
| FormantCard.LabelDeterminesColor | components/measure/formant-card.tsx:18-22 | two ratings share a label exactly when they share a colour |
| FormantCard.VtlRatingMonotone | components/measure/formant-card.tsx:18-22 | a longer vocal tract never gets a higher-voice rating |
| FormantCard.VtlColor | components/measure/formant-card.tsx:33-35 | success, brand and alert map one to one onto their theme colours |

## Left out

- The eGeMAPS extraction engine and the native calls `analyzeAudio`, `getVersion` and `isReady`. They are foreign code. `analyzeVoiceSimple`, `isAnalyzerReady` and `getAnalyzerVersion` are native calls plus logging.
- Audio recording I/O: the recorder, its metering, and the audio mode. The recorder's result is a parameter.
- Real persistence:
  - AsyncStorage calls are a map, and JSON round-trips are the identity.
  - The catch paths of `getItem` are not modelled.
  - File moves are modelled only as far as the recordings listing.
  - `copyRecording`, `deleteRecording`, `clearAllRecordings`, `ensureRecordingsDir` and `getRecordingsStorageSize` are not modelled.
- Nondeterminism and transcendental functions:
  - `generateId` and `Date.now()`: ids and instants are parameters.
  - `simulatePitchAnalysis`, `hzToSemitones` and `formatBytes` are not modelled.
  - The `exp` in the percentile is a positive parameter.
- Wall-clock dates. Instants are milliseconds and days are UTC day numbers; local time zones are not modelled. The start of the week is a parameter of `WorkoutContext.WorkoutState.GetWorkoutsThisWeek`.
- Timers and animations:
  - The exercise screen's one-second interval is `ExerciseScreen.ExerciseScreenState.Tick`. The rest screen (app/workout/rest.tsx), with its own countdown and its return to the exercise screen, is not modelled.
  - The recording screen's 100 ms interval is `UpdateDuration`.
  - The auto-stop timeout (app/measure/recording.tsx:97-99) is not modelled. It calls the `stopRecording` of the render that started the recording, where `isRecording` is still false, so it returns at line 106 and nothing stops at the step's maximum. The model, which has no auto-stop, behaves the same.
  - Haptics, toasts and navigation animations are not modelled.
- The setup script's prompts and file rewrites.
- RecordingScreen.RecordingScreenState.StopRecording stops at the analysis request. The analysis result, the `addMeasurement` call made with it, and the navigation to the results screen are not modelled.
- ExerciseScreen.ExerciseScreenState.Tick: when the countdown expires inside React's state updater, the rep reset that `handleTimerComplete` enqueues is applied after the updater's 0. The model runs the two in that order, as plain steps.
- ExerciseScreen.ExerciseScreenState.constructor requires an index inside the default workout, where the screen would throw on `undefined`. The re-run of the initialising effect when the index changes while the screen stays mounted is not modelled; the rest screen replaces the route, so the next exercise mounts afresh.
- ProgressBar.Progress requires a non-zero total. JavaScript would give 100, 0 or NaN from a division by zero.
- Opensmile.EstimateVocalTractLength requires F1 ≠ 0 and F3 ≠ F1, the cases where JavaScript divides by zero.
- TimerDisplay.FormatTimeRoundTrip is stated for whole non-negative seconds. Fractional seconds, which JavaScript would print with decimals, are not modelled.
- SetupProject.Lower lower-cases ASCII only. Unicode case mappings are not modelled; some of them produce ASCII letters (for example the Kelvin sign).
- Text.ParseDigits reads digits as an unbounded integer. `parseInt` loses precision above 2^53.
- VoiceContext.SortedByDate: the sort is stable, but stability is not proved. Only the ordering and the permutation are.
- UserContext.Merge cannot express a spread that sets a key to `undefined` explicitly. An update can only replace a field.
- FileStorage.RecordingsFolder.SaveRecording treats a move onto an existing name as replacing that file.
- Write failures. `setItem` and `removeItem` rethrow (services/storage/async-storage.ts:29-45), which would abort `finishWorkout` or `updateUser` midway; in the model every write succeeds.
- WorkoutContext.WorkoutState.FinishWorkout is the corrected flow of the first finding (the as-written progress is `WorkoutContext.FinishProgressAsWritten`). It also states only the final store: the intermediate save of the counters, made before the streak update and without the new date, is overwritten by the second save and not stated.
- RecordingScreen.RecordingScreenState.StopRecording is the corrected flow of the second finding: the recording is moved once (the as-written outcome is `RecordingScreen.StopResultAsWritten`).
- WorkoutContext.WorkoutState.LoadData requires a stored progress that keeps the streak invariant, as every progress the app writes does; a store edited by other means is not covered.
- Races between the asynchronous loads, and closures that read stale React state, are not modelled. Each handler runs to completion against the current state.

## Findings

| source | as written | input that shows it | evidently intended | confidence | as-written member | corrected member |
|---|---|---|---|---|---|---|
| context/WorkoutContext.tsx:130-143 | `finishWorkout` stores `lastWorkoutDate: today` and then calls `updateStreakInternal`, which measures the gap from that same date (lines 165-166), so the gap is always 0 and the streak never moves | a new user's first finished workout (default progress) leaves currentStreak and longestStreak at 0 | the streak steps from the previous workout day: 1 for a first workout, +1 on the next day | not executed | WorkoutContext.FirstWorkoutStreakStaysZero | WorkoutContext.FinishProgressStreaks |
| app/measure/recording.tsx:124-138 | on the last step the recorder's temporary file is moved into the recordings folder at 124-127 and moved again from the same temporary URI at 136-138 | any sustained-sound recording of at least 4000 ms: the second move's source is already gone, so the move rejects, the catch at 154-157 shows the error alert and the analysis never starts | save the recording once and analyse the URI it was saved under | not executed; assumes the file move rejects a missing source | RecordingScreen.LastStepFailsAsWritten | RecordingScreen.StopResultCorrectsLastStep |
