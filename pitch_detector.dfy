/** Pitch validation, the male voice bands and the training projections
    (services/audio/pitch-detector.ts). */
module PitchDetector {
  import opened Js
  import Types
  import OpensmileTypes
  import Opensmile

  /** `MALE_VOICE_RANGES`. */
  const MaleVoiceRanges := Types.PitchRanges(
    Types.PitchBand(60, 100, "Very Deep"),
    Types.PitchBand(100, 130, "Deep"),
    Types.PitchBand(130, 165, "Average"),
    Types.PitchBand(165, 200, "Higher"))

  /** The detector's bands are the app-wide `PITCH_RANGES`. */
  lemma MaleVoiceRangesArePitchRanges()
    ensures MaleVoiceRanges == Types.PitchRangesTable
  {
  }

  /** `isValidVoicePitch`: 50 to 400 Hz inclusive. */
  function IsValidVoicePitch(pitch: real): (ok: bool)
    ensures ok <==> 50.0 <= pitch <= 400.0
  {
    pitch >= 50.0 && pitch <= 400.0
  }

  datatype VoiceBand = VeryDeepBand | DeepBand | AverageBand | HigherBand

  function InBand(pitch: real, b: Types.PitchBand, closedAbove: bool): bool {
    pitch >= b.min as real && (if closedAbove then pitch <= b.max as real else pitch < b.max as real)
  }

  /** `getVoiceCategory`: the band holding the pitch; only the top band is closed above. */
  function GetVoiceCategory(pitch: real): (c: Option<VoiceBand>)
    ensures c.None? <==> pitch < 60.0 || pitch > 200.0
  {
    if InBand(pitch, MaleVoiceRanges.veryDeep, false) then Some(VeryDeepBand)
    else if InBand(pitch, MaleVoiceRanges.deep, false) then Some(DeepBand)
    else if InBand(pitch, MaleVoiceRanges.average, false) then Some(AverageBand)
    else if InBand(pitch, MaleVoiceRanges.higher, true) then Some(HigherBand)
    else None
  }

  /** A valid pitch is one inside the f0 search range the analysis engine
      uses by default, and every pitch that has a voice category is valid;
      the valid range is wider, so a valid pitch can still have no category. */
  lemma ValidPitchIsAnalysisRange(pitch: real)
    ensures IsValidVoicePitch(pitch)
        <==> Opensmile.DefaultConfig.f0Min.value <= pitch <= Opensmile.DefaultConfig.f0Max.value
    ensures GetVoiceCategory(pitch).Some? ==> IsValidVoicePitch(pitch)
    ensures IsValidVoicePitch(55.0) && GetVoiceCategory(55.0).None?
    ensures IsValidVoicePitch(300.0) && GetVoiceCategory(300.0).None?
  {
  }

  /** The category of the voice-analysis module that matches a band. */
  function BandCategory(b: VoiceBand): OpensmileTypes.VoiceCategory {
    match b
    case VeryDeepBand => OpensmileTypes.VeryDeep
    case DeepBand => OpensmileTypes.Deep
    case AverageBand => OpensmileTypes.Average
    case HigherBand => OpensmileTypes.Higher
  }

  /** Within 60..200 Hz the four bands cover every pitch exactly once, with
      200 Hz in the top band, and agree band for band with `categorizePitch`. */
  lemma BandsPartitionRange(pitch: real)
    requires 60.0 <= pitch <= 200.0
    ensures GetVoiceCategory(pitch).Some?
    ensures GetVoiceCategory(pitch) == Some(VeryDeepBand) <==> pitch < 100.0
    ensures GetVoiceCategory(pitch) == Some(DeepBand) <==> 100.0 <= pitch < 130.0
    ensures GetVoiceCategory(pitch) == Some(AverageBand) <==> 130.0 <= pitch < 165.0
    ensures GetVoiceCategory(pitch) == Some(HigherBand) <==> 165.0 <= pitch
    ensures BandCategory(GetVoiceCategory(pitch).value) == OpensmileTypes.CategorizePitch(pitch)
  {
  }

  const GenericDescription := "Your voice pitch has been measured."

  /** `getVoiceDescription`: a sentence per band, a generic one outside them. */
  function GetVoiceDescription(pitch: real): (d: string)
    ensures d == GenericDescription <==> GetVoiceCategory(pitch).None?
  {
    match GetVoiceCategory(pitch)
    case Some(VeryDeepBand) => "You have a very deep voice - in the range of bass singers and voice actors."
    case Some(DeepBand) => "Your voice is deeper than average - authoritative and commanding."
    case Some(AverageBand) => "Your voice is in the average male range - with room for deepening through training."
    case Some(HigherBand) => "Your voice is slightly higher pitched - training can help develop more depth."
    case None => GenericDescription
  }

  datatype Projections = Projections(oneMonth: int, threeMonth: int)

  /** The three-month target: 12% lower, by at most 25 Hz. */
  function ThreeMonthTarget(baseline: real): int {
    Round(baseline - Min(baseline * 0.12, 25.0))
  }

  /** `calculateProjections`: 5% lower after a month (at most 12 Hz), 12% lower
      after three months (at most 25 Hz), rounded. */
  function CalculateProjections(baseline: real): (p: Projections)
    ensures baseline - 12.0 - 0.5 < p.oneMonth as real
    ensures baseline - 25.0 - 0.5 < p.threeMonth as real
    ensures baseline >= 0.0 ==> p.threeMonth <= p.oneMonth <= Round(baseline)
    ensures p.threeMonth == ThreeMonthTarget(baseline)
  {
    var oneMonthDecrease := Min(baseline * 0.05, 12.0);
    var threeMonthDecrease := Min(baseline * 0.12, 25.0);
    var p := Projections(Round(baseline - oneMonthDecrease), Round(baseline - threeMonthDecrease));
    if baseline >= 0.0 then
      RoundMonotone(baseline - threeMonthDecrease, baseline - oneMonthDecrease);
      RoundMonotone(baseline - oneMonthDecrease, baseline);
      p
    else p
  }

  /** Below 240 Hz the one-month drop is the 5% share; from 240 Hz it is the
      12 Hz cap. Below about 208 Hz the three-month drop is 12%; above, 25 Hz. */
  lemma ProjectionCaps(baseline: real)
    ensures baseline <= 240.0 ==> CalculateProjections(baseline).oneMonth == Round(baseline * 0.95)
    ensures baseline >= 240.0 ==> CalculateProjections(baseline).oneMonth == Round(baseline - 12.0)
    ensures baseline * 0.12 >= 25.0 ==> CalculateProjections(baseline).threeMonth == Round(baseline - 25.0)
    ensures baseline * 0.12 <= 25.0 ==> CalculateProjections(baseline).threeMonth == Round(baseline * 0.88)
  {
  }
}
