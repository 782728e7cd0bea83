/** The measurement history of the app (context/VoiceContext.tsx): adding and
    clearing measurements, filtering them by context, their rounded average
    pitch and the first-three versus last-three trend. */
module VoiceContext {
  import opened Js
  import opened Types
  import Sorting
  import AsyncStorage

  /** `getMeasurementsByContext`: the measurements taken in `context`, in order. */
  function ByContext(ms: seq<VoiceMeasurement>, context: MeasurementContext): (r: seq<VoiceMeasurement>)
    ensures |r| <= |ms|
    ensures forall m | m in r :: m in ms && m.context == context
    ensures forall m | m in ms && m.context == context :: m in r
  {
    if ms == [] then []
    else
      var rest := ByContext(ms[1..], context);
      assert forall m | m in ms :: m == ms[0] || m in ms[1..];
      if ms[0].context == context then [ms[0]] + rest else rest
  }

  /** Adding a measurement adds it to its own context's list and to no other. */
  lemma {:induction false} ByContextAppend(ms: seq<VoiceMeasurement>, m: VoiceMeasurement, context: MeasurementContext)
    ensures ByContext(ms + [m], context) == ByContext(ms, context) + (if m.context == context then [m] else [])
    decreases |ms|
  {
    if ms == [] {
      assert ms + [m] == [m];
      assert [m][1..] == [];
    } else {
      assert (ms + [m])[1..] == ms[1..] + [m];
      ByContextAppend(ms[1..], m, context);
    }
  }

  /** The sum of the pitches, `reduce((acc, m) => acc + m.pitchHz, 0)`. */
  function PitchSum(ms: seq<VoiceMeasurement>): real {
    if ms == [] then 0.0 else PitchSum(ms[..|ms| - 1]) + ms[|ms| - 1].pitchHz
  }

  /** Every pitch lies in `[lo, hi]`. */
  predicate PitchesWithin(ms: seq<VoiceMeasurement>, lo: real, hi: real) {
    forall i | 0 <= i < |ms| :: lo <= ms[i].pitchHz <= hi
  }

  /** The sum of pitches within `[lo, hi]` lies between `n·lo` and `n·hi`. */
  lemma {:induction false} PitchSumBounds(ms: seq<VoiceMeasurement>, lo: real, hi: real)
    requires PitchesWithin(ms, lo, hi)
    ensures |ms| as real * lo <= PitchSum(ms) <= |ms| as real * hi
    decreases |ms|
  {
    if ms != [] {
      PitchSumBounds(ms[..|ms| - 1], lo, hi);
    }
  }

  /** `getAveragePitch`: null for no measurements, else the rounded mean. */
  function AveragePitch(ms: seq<VoiceMeasurement>): (r: Option<int>)
    ensures r.None? <==> ms == []
  {
    if |ms| == 0 then None else Some(Round(PitchSum(ms) / |ms| as real))
  }

  /** With every pitch between two whole numbers of hertz, so is the rounded
      average: with whole-number pitches it lies between the lowest and the
      highest. */
  lemma AverageBetween(ms: seq<VoiceMeasurement>, lo: int, hi: int)
    requires ms != [] && PitchesWithin(ms, lo as real, hi as real)
    ensures lo <= AveragePitch(ms).value <= hi
  {
    PitchSumBounds(ms, lo as real, hi as real);
    var n := |ms| as real;
    assert lo as real <= PitchSum(ms) / n <= hi as real by {
      assert n * (lo as real) / n == lo as real;
      assert n * (hi as real) / n == hi as real;
    }
    RoundBetween(PitchSum(ms) / n, lo, hi);
  }

  datatype Trend = Improving | Stable | Declining

  function Timestamp(m: VoiceMeasurement): int {
    m.timestamp
  }

  /** `[...measurements].sort(...)`: a sorted copy, oldest first. */
  function SortedByDate(ms: seq<VoiceMeasurement>): (r: seq<VoiceMeasurement>)
    ensures multiset(r) == multiset(ms)
    ensures forall i, j | 0 <= i < j < |r| :: r[i].timestamp <= r[j].timestamp
  {
    Sorting.SortBySorted(ms, Timestamp);
    Sorting.SortBy(ms, Timestamp)
  }

  /** The trend from the mean pitch of the first three and the last three: a
      drop of more than 5 Hz is improving, a rise of more than 5 Hz declining. */
  function TrendOf(firstAvg: real, lastAvg: real): (t: Trend)
    ensures t == Improving <==> firstAvg - lastAvg > 5.0
    ensures t == Declining <==> firstAvg - lastAvg < -5.0
    ensures t == Stable <==> -5.0 <= firstAvg - lastAvg <= 5.0
  {
    var difference := firstAvg - lastAvg;
    if difference > 5.0 then Improving
    else if difference < -5.0 then Declining
    else Stable
  }

  /** `getPitchTrend`: null below three measurements. */
  function PitchTrend(ms: seq<VoiceMeasurement>): (r: Option<Trend>)
    ensures r.None? <==> |ms| < 3
  {
    if |ms| < 3 then None
    else
      var sorted := SortedByDate(ms);
      var firstThree := sorted[..3];
      var lastThree := sorted[|sorted| - 3..];
      Some(TrendOf(PitchSum(firstThree) / 3.0, PitchSum(lastThree) / 3.0))
  }

  /** With exactly three measurements the first and last three are the same,
      so the trend is always stable. */
  lemma ThreeMeasurementsAreStable(ms: seq<VoiceMeasurement>)
    requires |ms| == 3
    ensures PitchTrend(ms) == Some(Stable)
  {
    var sorted := SortedByDate(ms);
    assert sorted[..3] == sorted[|sorted| - 3..];
  }

  /** The trend compares the three oldest with the three newest measurements. */
  lemma TrendComparesOldestWithNewest(ms: seq<VoiceMeasurement>)
    requires |ms| >= 3
    ensures var sorted := SortedByDate(ms);
      && multiset(sorted) == multiset(ms)
      && (forall i, j | 0 <= i < 3 && |sorted| - 3 <= j < |sorted| && i < j :: sorted[i].timestamp <= sorted[j].timestamp)
      && PitchTrend(ms) == Some(TrendOf(PitchSum(sorted[..3]) / 3.0, PitchSum(sorted[|sorted| - 3..]) / 3.0))
  {
    Sorting.SortBySorted(ms, Timestamp);
  }

  /** The measurement history as the provider holds it. */
  class VoiceState {
    var measurements: seq<VoiceMeasurement>
    var latestMeasurement: Option<VoiceMeasurement>

    /** The latest measurement is the last one of the list. */
    ghost predicate Valid()
      reads this
    {
      latestMeasurement == if measurements == [] then None else Some(measurements[|measurements| - 1])
    }

    constructor ()
      ensures measurements == [] && latestMeasurement == None && Valid()
    {
      measurements := [];
      latestMeasurement := None;
    }

    /** `loadMeasurements`: the stored list and the stored latest measurement. */
    method LoadMeasurements(store: AsyncStorage.Store)
      modifies this
      ensures measurements == store.GetVoiceMeasurements()
      ensures latestMeasurement == store.GetLatestMeasurement()
      ensures Valid()
    {
      measurements := store.GetVoiceMeasurements();
      latestMeasurement := store.GetLatestMeasurement();
    }

    /** `addMeasurement`: store the new measurement, append it and make it the latest. */
    method AddMeasurement(id: string, now: int, pitchHz: real, pitchMin: real, pitchMax: real,
                          recordingUri: string, duration: real, context: MeasurementContext,
                          store: AsyncStorage.Store)
      returns (measurement: VoiceMeasurement)
      requires Valid()
      modifies this, store
      ensures measurement == VoiceMeasurement(id, now, pitchHz, pitchMin, pitchMax, recordingUri, duration, context)
      ensures measurements == old(measurements) + [measurement]
      ensures latestMeasurement == Some(measurement)
      ensures store.data == AsyncStorage.WithMeasurement(old(store.data), measurement)
      ensures Valid()
    {
      measurement := VoiceMeasurement(id, now, pitchHz, pitchMin, pitchMax, recordingUri, duration, context);
      store.SaveVoiceMeasurement(measurement);
      measurements := measurements + [measurement];
      latestMeasurement := Some(measurement);
    }

    function GetMeasurementsByContext(context: MeasurementContext): seq<VoiceMeasurement>
      reads this
    {
      ByContext(measurements, context)
    }

    function GetAveragePitch(): Option<int>
      reads this
    {
      AveragePitch(measurements)
    }

    /** Sorting works on a copy: reading the trend changes no state. */
    function GetPitchTrend(): Option<Trend>
      reads this
    {
      PitchTrend(measurements)
    }

    /** `clearMeasurements`. */
    method ClearMeasurements(store: AsyncStorage.Store)
      modifies this, store
      ensures store.data == old(store.data) - {AsyncStorage.VoiceMeasurementsKey}
      ensures measurements == [] && latestMeasurement == None && Valid()
    {
      store.ClearVoiceMeasurements();
      measurements := [];
      latestMeasurement := None;
    }
  }
}
