/** Pitch and quality categories and the clinical reference ranges of the
    voice-analysis module (modules/expo-opensmile/src/ExpoOpensmile.types.ts). */
module OpensmileTypes {

  datatype VoiceCategory = VeryDeep | Deep | Average | Higher
  datatype VoiceQualityCategory = Excellent | Good | AverageQuality | NeedsWork

  /** Depth rank of a category: 0 is the deepest. */
  function CategoryRank(c: VoiceCategory): nat {
    match c
    case VeryDeep => 0
    case Deep => 1
    case Average => 2
    case Higher => 3
  }

  /** Rank of a quality category: 3 is the best. */
  function QualityRank(q: VoiceQualityCategory): nat {
    match q
    case NeedsWork => 0
    case AverageQuality => 1
    case Good => 2
    case Excellent => 3
  }

  /** `categorizePitch`: very deep below 100 Hz, deep below 130, average below 165. */
  function CategorizePitch(pitchHz: real): (c: VoiceCategory)
    ensures c == VeryDeep <==> pitchHz < 100.0
    ensures c == Deep <==> 100.0 <= pitchHz < 130.0
    ensures c == Average <==> 130.0 <= pitchHz < 165.0
    ensures c == Higher <==> 165.0 <= pitchHz
  {
    if pitchHz < 100.0 then VeryDeep
    else if pitchHz < 130.0 then Deep
    else if pitchHz < 165.0 then Average
    else Higher
  }

  /** `categorizeQuality`: excellent from 80, good from 60, average from 40. */
  function CategorizeQuality(score: real): (q: VoiceQualityCategory)
    ensures q == Excellent <==> score >= 80.0
    ensures q == Good <==> 60.0 <= score < 80.0
    ensures q == AverageQuality <==> 40.0 <= score < 60.0
    ensures q == NeedsWork <==> score < 40.0
  {
    if score >= 80.0 then Excellent
    else if score >= 60.0 then Good
    else if score >= 40.0 then AverageQuality
    else NeedsWork
  }

  /** A higher pitch never yields a deeper category. */
  lemma CategorizePitchMonotone(p: real, q: real)
    requires p <= q
    ensures CategoryRank(CategorizePitch(p)) <= CategoryRank(CategorizePitch(q))
  {
  }

  /** A higher score never yields a worse category. */
  lemma CategorizeQualityMonotone(s: real, t: real)
    requires s <= t
    ensures QualityRank(CategorizeQuality(s)) <= QualityRank(CategorizeQuality(t))
  {
  }

  /** An upper bound (jitter, shimmer) or lower bound (HNR) per status. */
  datatype Thresholds = Thresholds(excellent: real, good: real, normal: real)

  datatype Band = Band(min: real, max: real)

  datatype MaleF0 = MaleF0(veryDeep: Band, deep: Band, average: Band, higher: Band)

  datatype ClinicalRanges = ClinicalRanges(
    jitterMax: Thresholds,
    shimmerMax: Thresholds,
    hnrMin: Thresholds,
    f0Male: MaleF0,
    vtlMale: Band,
    vtlFemale: Band)

  /** `CLINICAL_RANGES`. */
  const Clinical := ClinicalRanges(
    Thresholds(1.0, 2.0, 3.0),
    Thresholds(1.0, 2.0, 3.0),
    Thresholds(18.0, 12.0, 7.0),
    MaleF0(Band(60.0, 100.0), Band(100.0, 130.0), Band(130.0, 155.0), Band(155.0, 200.0)),
    Band(15.0, 18.0),
    Band(13.0, 15.0))

  /** The perturbation maxima grow from excellent to normal, the HNR minima shrink,
      and the male F0 bands tile 60..200 Hz without gaps. */
  lemma ClinicalRangesOrdered()
    ensures Clinical.jitterMax.excellent < Clinical.jitterMax.good < Clinical.jitterMax.normal
    ensures Clinical.shimmerMax.excellent < Clinical.shimmerMax.good < Clinical.shimmerMax.normal
    ensures Clinical.hnrMin.normal < Clinical.hnrMin.good < Clinical.hnrMin.excellent
    ensures Clinical.f0Male.veryDeep.min == 60.0 && Clinical.f0Male.higher.max == 200.0
    ensures Clinical.f0Male.veryDeep.max == Clinical.f0Male.deep.min
    ensures Clinical.f0Male.deep.max == Clinical.f0Male.average.min
    ensures Clinical.f0Male.average.max == Clinical.f0Male.higher.min
  {
  }

  /** The clinical male "average" band ends at 155 Hz while `categorizePitch`
      calls pitches up to 165 Hz average: 160 Hz lies in the clinical "higher"
      band but is categorised as average. */
  lemma ClinicalAverageNarrowerThanCategory()
    ensures Clinical.f0Male.higher.min <= 160.0 < Clinical.f0Male.higher.max
    ensures CategorizePitch(160.0) == Average
  {
  }
}
