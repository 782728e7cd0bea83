/** The key-value store behind the app's persistence
    (services/storage/async-storage.ts). The device store is a map from key to
    stored value; serialisation to JSON and back is the identity. */
module AsyncStorage {
  import opened Js
  import opened Types

  /** `STORAGE_KEYS`. */
  datatype StorageKey = UserProfileKey | VoiceMeasurementsKey | WorkoutHistoryKey | UserProgressKey | SettingsKey

  /** The string each key is stored under. */
  function KeyName(k: StorageKey): (name: string)
    ensures |name| > 10 && name[..10] == "@voicemax:"
  {
    "@voicemax:" + match k
      case UserProfileKey => "user_profile"
      case VoiceMeasurementsKey => "voice_measurements"
      case WorkoutHistoryKey => "workout_history"
      case UserProgressKey => "user_progress"
      case SettingsKey => "settings"
  }

  /** No two keys share a storage name. */
  lemma KeyNamesDistinct(k: StorageKey, k': StorageKey)
    requires k != k'
    ensures KeyName(k) != KeyName(k')
  {
    assert |KeyName(k)| != |KeyName(k')|;
  }

  /** What a key may hold. Settings are kept as an opaque string. */
  datatype Stored =
    | ProfileValue(profile: UserProfile)
    | MeasurementsValue(measurements: seq<VoiceMeasurement>)
    | HistoryValue(history: seq<WorkoutSession>)
    | ProgressValue(progress: UserProgress)
    | SettingsValue(raw: string)

  type Data = map<StorageKey, Stored>

  /** `getUserProfile`: the stored profile, or null. */
  function ProfileIn(data: Data): Option<UserProfile> {
    if UserProfileKey in data && data[UserProfileKey].ProfileValue? then Some(data[UserProfileKey].profile) else None
  }

  /** `getVoiceMeasurements`: the stored list, or [] when nothing is stored. */
  function MeasurementsIn(data: Data): seq<VoiceMeasurement> {
    if VoiceMeasurementsKey in data && data[VoiceMeasurementsKey].MeasurementsValue?
    then data[VoiceMeasurementsKey].measurements else []
  }

  /** `getWorkoutHistory`: the stored list, or [] when nothing is stored. */
  function HistoryIn(data: Data): seq<WorkoutSession> {
    if WorkoutHistoryKey in data && data[WorkoutHistoryKey].HistoryValue?
    then data[WorkoutHistoryKey].history else []
  }

  /** `getUserProgress`: the stored progress, or null. */
  function ProgressIn(data: Data): Option<UserProgress> {
    if UserProgressKey in data && data[UserProgressKey].ProgressValue? then Some(data[UserProgressKey].progress) else None
  }

  /** `getLatestMeasurement`: the last stored measurement, null for none. */
  function LatestIn(data: Data): (r: Option<VoiceMeasurement>)
    ensures r.None? <==> MeasurementsIn(data) == []
    ensures r.Some? ==> r.value == MeasurementsIn(data)[|MeasurementsIn(data)| - 1]
  {
    var ms := MeasurementsIn(data);
    if |ms| == 0 then None else Some(ms[|ms| - 1])
  }

  /** `history.findIndex((s) => s.id === id)`: the first index with that id, or -1. */
  function FindIndex(history: seq<WorkoutSession>, id: string): (i: int)
    ensures -1 <= i < |history|
    ensures i == -1 <==> forall j | 0 <= j < |history| :: history[j].id != id
    ensures i >= 0 ==> history[i].id == id && forall j | 0 <= j < i :: history[j].id != id
  {
    if history == [] then -1
    else if history[0].id == id then 0
    else
      var i := FindIndex(history[1..], id);
      if i == -1 then -1 else i + 1
  }

  // The store after each write, as pure functions of the store before it.

  function WithMeasurement(data: Data, m: VoiceMeasurement): Data {
    data[VoiceMeasurementsKey := MeasurementsValue(MeasurementsIn(data) + [m])]
  }

  function WithSession(data: Data, s: WorkoutSession): Data {
    data[WorkoutHistoryKey := HistoryValue(HistoryIn(data) + [s])]
  }

  function WithUpdatedSession(data: Data, s: WorkoutSession): Data {
    var i := FindIndex(HistoryIn(data), s.id);
    if i == -1 then data else data[WorkoutHistoryKey := HistoryValue(HistoryIn(data)[i := s])]
  }

  /** The keys `clearAllData` removes: everything but the settings. */
  const ClearedKeys := {UserProfileKey, VoiceMeasurementsKey, WorkoutHistoryKey, UserProgressKey}

  /** Saving a measurement appends exactly it and leaves every other key alone;
      it is then the latest measurement. */
  lemma SaveMeasurementAppends(data: Data, m: VoiceMeasurement)
    ensures MeasurementsIn(WithMeasurement(data, m)) == MeasurementsIn(data) + [m]
    ensures |MeasurementsIn(WithMeasurement(data, m))| == |MeasurementsIn(data)| + 1
    ensures LatestIn(WithMeasurement(data, m)) == Some(m)
    ensures forall k | k != VoiceMeasurementsKey :: (k in data <==> k in WithMeasurement(data, m))
    ensures forall k | k != VoiceMeasurementsKey && k in data :: WithMeasurement(data, m)[k] == data[k]
  {
  }

  /** Saving a session appends exactly it; the earlier sessions are unchanged. */
  lemma SaveSessionAppends(data: Data, s: WorkoutSession)
    ensures HistoryIn(WithSession(data, s)) == HistoryIn(data) + [s]
    ensures HistoryIn(WithSession(data, s))[..|HistoryIn(data)|] == HistoryIn(data)
    ensures MeasurementsIn(WithSession(data, s)) == MeasurementsIn(data)
    ensures ProfileIn(WithSession(data, s)) == ProfileIn(data)
    ensures ProgressIn(WithSession(data, s)) == ProgressIn(data)
  {
  }

  /** Updating a session replaces the first one with its id and keeps the
      length and every other session; with no such id nothing is written. */
  lemma UpdateSessionReplacesFirst(data: Data, s: WorkoutSession)
    ensures var h, h' := HistoryIn(data), HistoryIn(WithUpdatedSession(data, s));
      && |h'| == |h|
      && (FindIndex(h, s.id) == -1 ==> WithUpdatedSession(data, s) == data)
      && (FindIndex(h, s.id) >= 0 ==>
            h'[FindIndex(h, s.id)] == s
            && forall j | 0 <= j < |h| && j != FindIndex(h, s.id) :: h'[j] == h[j])
  {
  }

  /** Clearing everything leaves no profile, no measurements, no history and
      no progress, but keeps the settings. */
  lemma ClearAllEmpties(data: Data)
    ensures ProfileIn(data - ClearedKeys) == None && ProgressIn(data - ClearedKeys) == None
    ensures MeasurementsIn(data - ClearedKeys) == [] && HistoryIn(data - ClearedKeys) == []
    ensures LatestIn(data - ClearedKeys) == None
    ensures SettingsKey in data ==> SettingsKey in data - ClearedKeys && (data - ClearedKeys)[SettingsKey] == data[SettingsKey]
  {
  }

  /** A save followed by a read gives back what was saved. */
  lemma SaveThenGet(data: Data, p: UserProfile, q: UserProgress)
    ensures ProfileIn(data[UserProfileKey := ProfileValue(p)]) == Some(p)
    ensures ProgressIn(data[UserProgressKey := ProgressValue(q)]) == Some(q)
    ensures ProfileIn(data - {UserProfileKey}) == None
    ensures ProgressIn(data - {UserProgressKey}) == None
  {
  }

  /** The device's key-value store. */
  class Store {
    var data: Data

    constructor ()
      ensures data == map[]
    {
      data := map[];
    }

    /** `getUserProfile`: the stored profile, or none when nothing is stored. */
    function GetUserProfile(): (r: Option<UserProfile>)
      reads this
      ensures r.Some? <==> UserProfileKey in data && data[UserProfileKey].ProfileValue?
      ensures r.Some? ==> data[UserProfileKey] == ProfileValue(r.value)
    {
      ProfileIn(data)
    }

    /** `getVoiceMeasurements`: the stored list, or [] when nothing is stored. */
    function GetVoiceMeasurements(): (r: seq<VoiceMeasurement>)
      reads this
      ensures VoiceMeasurementsKey in data && data[VoiceMeasurementsKey].MeasurementsValue? ==>
        data[VoiceMeasurementsKey] == MeasurementsValue(r)
      ensures !(VoiceMeasurementsKey in data && data[VoiceMeasurementsKey].MeasurementsValue?) ==> r == []
    {
      MeasurementsIn(data)
    }

    /** `getLatestMeasurement`: the last stored measurement, none for none. */
    function GetLatestMeasurement(): (r: Option<VoiceMeasurement>)
      reads this
      ensures r.None? <==> GetVoiceMeasurements() == []
      ensures r.Some? ==> r.value == GetVoiceMeasurements()[|GetVoiceMeasurements()| - 1]
    {
      LatestIn(data)
    }

    /** `getWorkoutHistory`: the stored list, or [] when nothing is stored. */
    function GetWorkoutHistory(): (r: seq<WorkoutSession>)
      reads this
      ensures WorkoutHistoryKey in data && data[WorkoutHistoryKey].HistoryValue? ==>
        data[WorkoutHistoryKey] == HistoryValue(r)
      ensures !(WorkoutHistoryKey in data && data[WorkoutHistoryKey].HistoryValue?) ==> r == []
    {
      HistoryIn(data)
    }

    /** `getUserProgress`: the stored progress, or none when nothing is stored. */
    function GetUserProgress(): (r: Option<UserProgress>)
      reads this
      ensures r.Some? <==> UserProgressKey in data && data[UserProgressKey].ProgressValue?
      ensures r.Some? ==> data[UserProgressKey] == ProgressValue(r.value)
    {
      ProgressIn(data)
    }

    /** `saveUserProfile`. */
    method SaveUserProfile(profile: UserProfile)
      modifies this
      ensures data == old(data)[UserProfileKey := ProfileValue(profile)]
    {
      data := data[UserProfileKey := ProfileValue(profile)];
    }

    /** `clearUserProfile`. */
    method ClearUserProfile()
      modifies this
      ensures data == old(data) - {UserProfileKey}
    {
      data := data - {UserProfileKey};
    }

    /** `saveVoiceMeasurement`: read the list, push, write it back. */
    method SaveVoiceMeasurement(measurement: VoiceMeasurement)
      modifies this
      ensures data == WithMeasurement(old(data), measurement)
    {
      var measurements := GetVoiceMeasurements();
      measurements := measurements + [measurement];
      data := data[VoiceMeasurementsKey := MeasurementsValue(measurements)];
    }

    /** `clearVoiceMeasurements`. */
    method ClearVoiceMeasurements()
      modifies this
      ensures data == old(data) - {VoiceMeasurementsKey}
    {
      data := data - {VoiceMeasurementsKey};
    }

    /** `saveWorkoutSession`: read the history, push, write it back. */
    method SaveWorkoutSession(session: WorkoutSession)
      modifies this
      ensures data == WithSession(old(data), session)
    {
      var history := GetWorkoutHistory();
      history := history + [session];
      data := data[WorkoutHistoryKey := HistoryValue(history)];
    }

    /** `updateWorkoutSession`: overwrite the first session with the same id. */
    method UpdateWorkoutSession(session: WorkoutSession)
      modifies this
      ensures data == WithUpdatedSession(old(data), session)
    {
      var history := GetWorkoutHistory();
      var index := FindIndex(history, session.id);
      if index != -1 {
        history := history[index := session];
        data := data[WorkoutHistoryKey := HistoryValue(history)];
      }
    }

    /** `clearWorkoutHistory`. */
    method ClearWorkoutHistory()
      modifies this
      ensures data == old(data) - {WorkoutHistoryKey}
    {
      data := data - {WorkoutHistoryKey};
    }

    /** `saveUserProgress`. */
    method SaveUserProgress(progress: UserProgress)
      modifies this
      ensures data == old(data)[UserProgressKey := ProgressValue(progress)]
    {
      data := data[UserProgressKey := ProgressValue(progress)];
    }

    /** `clearUserProgress`. */
    method ClearUserProgress()
      modifies this
      ensures data == old(data) - {UserProgressKey}
    {
      data := data - {UserProgressKey};
    }

    /** `clearAllData`: the four clears; the settings key is never touched. */
    method ClearAllData()
      modifies this
      ensures data == old(data) - ClearedKeys
    {
      ClearUserProfile();
      ClearVoiceMeasurements();
      ClearWorkoutHistory();
      ClearUserProgress();
    }
  }
}
