/** The voice-analysis service (services/audio/voice-analyzer.ts): metric
    statuses, the configuration of a full analysis, the comparison of two
    analyses and the rule-driven training recommendations. */
module VoiceAnalyzer {
  import opened Js
  import opened OpensmileTypes
  import Opensmile
  import Text

  /** A perturbation status (jitter, shimmer): `High` is the worst. */
  datatype PerturbationStatus = PExcellent | PGood | PNormal | PHigh

  /** An HNR status: `Low` is the worst. */
  datatype HnrStatus = HExcellent | HGood | HNormal | HLow

  function PerturbationRank(s: PerturbationStatus): nat {
    match s
    case PExcellent => 0
    case PGood => 1
    case PNormal => 2
    case PHigh => 3
  }

  function HnrRank(s: HnrStatus): nat {
    match s
    case HLow => 0
    case HNormal => 1
    case HGood => 2
    case HExcellent => 3
  }

  /** `getJitterStatus`: the jitter percentage against 1, 2 and 3. */
  function JitterStatus(jitter: real): (s: PerturbationStatus)
    ensures s == PExcellent <==> jitter <= Clinical.jitterMax.excellent
    ensures s == PGood <==> Clinical.jitterMax.excellent < jitter <= Clinical.jitterMax.good
    ensures s == PNormal <==> Clinical.jitterMax.good < jitter <= Clinical.jitterMax.normal
    ensures s == PHigh <==> Clinical.jitterMax.normal < jitter
  {
    if jitter <= 1.0 then PExcellent
    else if jitter <= 2.0 then PGood
    else if jitter <= 3.0 then PNormal
    else PHigh
  }

  /** `getShimmerStatus`: 1 dB, then the clinical good and normal maxima. */
  function ShimmerStatus(shimmer: real): (s: PerturbationStatus)
    ensures s == PExcellent <==> shimmer <= 1.0
    ensures s == PGood <==> 1.0 < shimmer <= 2.0
    ensures s == PNormal <==> 2.0 < shimmer <= 3.0
    ensures s == PHigh <==> 3.0 < shimmer
  {
    if shimmer <= 1.0 then PExcellent
    else if shimmer <= Clinical.shimmerMax.good then PGood
    else if shimmer <= Clinical.shimmerMax.normal then PNormal
    else PHigh
  }

  /** `getHnrStatus`: the clinical HNR minima 18, 12 and 7 dB. */
  function HnrStatusOf(hnr: real): (s: HnrStatus)
    ensures s == HExcellent <==> hnr >= 18.0
    ensures s == HGood <==> 12.0 <= hnr < 18.0
    ensures s == HNormal <==> 7.0 <= hnr < 12.0
    ensures s == HLow <==> hnr < 7.0
  {
    if hnr >= Clinical.hnrMin.excellent then HExcellent
    else if hnr >= Clinical.hnrMin.good then HGood
    else if hnr >= Clinical.hnrMin.normal then HNormal
    else HLow
  }

  /** Jitter and shimmer share their thresholds; more perturbation never
      improves the status, and a higher HNR never worsens it. */
  lemma StatusesMonotone(x: real, y: real)
    requires x <= y
    ensures JitterStatus(x) == ShimmerStatus(x)
    ensures PerturbationRank(JitterStatus(x)) <= PerturbationRank(JitterStatus(y))
    ensures PerturbationRank(ShimmerStatus(x)) <= PerturbationRank(ShimmerStatus(y))
    ensures HnrRank(HnrStatusOf(x)) <= HnrRank(HnrStatusOf(y))
  {
  }

  /** The options of `analyzeVoiceRecording`. */
  datatype RecordingOptions = RecordingOptions(
    includeTimeSeries: Option<bool>, includeRawFeatures: Option<bool>)

  function OrFalse(b: Option<bool>): bool {
    if b.Some? then b.value else false
  }

  /** The configuration `analyzeVoiceRecording` passes to the engine. */
  function RecordingConfig(options: Option<RecordingOptions>): (c: Opensmile.AnalysisConfig)
    ensures c.frameSize == Some(25.0) && c.frameStep == Some(10.0)
    ensures c.f0Min == Some(50.0) && c.f0Max == Some(400.0)
    ensures c.includeLldTimeSeries == Some(options.Some? && options.value.includeTimeSeries == Some(true))
    ensures c.includeRawFeatures == Some(options.Some? && options.value.includeRawFeatures == Some(true))
  {
    var o := if options.Some? then options.value else RecordingOptions(None, None);
    Opensmile.AnalysisConfig(
      Some(25.0), Some(10.0), Some(50.0), Some(400.0),
      Some(OrFalse(o.includeTimeSeries)), Some(OrFalse(o.includeRawFeatures)))
  }

  /** The recording configuration is complete, so the engine's default merge
      leaves it as it is, and without options it is the engine's default. */
  lemma RecordingConfigIsEffective(options: Option<RecordingOptions>)
    ensures Opensmile.EffectiveConfig(Some(RecordingConfig(options))) == RecordingConfig(options)
    ensures RecordingConfig(None) == Opensmile.DefaultConfig
  {
  }

  /** `SimpleVoiceAnalysis`, the result shown to the user. */
  datatype SimpleVoiceAnalysis = SimpleVoiceAnalysis(
    pitchHz: int,
    category: VoiceCategory,
    percentile: int,
    comparison: string,
    depth: real,
    resonance: real,
    power: real,
    control: real,
    overall: real,
    qualityCategory: VoiceQualityCategory,
    jitter: real,
    shimmer: real,
    hnr: real,
    vocalTractLength: real)

  datatype Comparison = Comparison(
    pitchChange: int,
    pitchImproved: bool,
    overallChange: real,
    overallImproved: bool,
    depthChange: real,
    resonanceChange: real,
    powerChange: real,
    controlChange: real,
    summary: string)

  const BothImproved := "Great progress! Your voice is deeper and more powerful."
  const QualityImproved := "Your voice quality improved. Keep training for deeper pitch."
  const NoProgress := "Keep practicing! Consistent training leads to results."

  function PitchDropped(drop: nat): string {
    "Your pitch dropped " + Text.NatToString(drop) + " Hz. Keep working on projection."
  }

  /** `compareVoiceAnalyses`: every change is current minus baseline; a lower
      pitch and a higher overall score count as improvements. */
  function CompareVoiceAnalyses(baseline: SimpleVoiceAnalysis, current: SimpleVoiceAnalysis): (c: Comparison)
    ensures c.pitchChange == current.pitchHz - baseline.pitchHz
    ensures c.pitchImproved <==> current.pitchHz < baseline.pitchHz
    ensures c.overallChange == current.overall - baseline.overall
    ensures c.overallImproved <==> current.overall > baseline.overall
    ensures c.depthChange == current.depth - baseline.depth
    ensures c.resonanceChange == current.resonance - baseline.resonance
    ensures c.powerChange == current.power - baseline.power
    ensures c.controlChange == current.control - baseline.control
    ensures c.pitchImproved && c.overallImproved ==> c.summary == BothImproved
    ensures !c.pitchImproved && c.overallImproved ==> c.summary == QualityImproved
    ensures !c.pitchImproved && !c.overallImproved ==> c.summary == NoProgress
    ensures c.pitchImproved && !c.overallImproved ==> c.summary == PitchDropped(baseline.pitchHz - current.pitchHz)
  {
    var pitchChange := current.pitchHz - baseline.pitchHz;
    var pitchImproved := pitchChange < 0;
    var overallChange := current.overall - baseline.overall;
    var overallImproved := overallChange > 0.0;
    var summary :=
      if pitchImproved && overallImproved then BothImproved
      else if pitchImproved then PitchDropped(-pitchChange)
      else if overallImproved then QualityImproved
      else NoProgress;
    Comparison(
      pitchChange, pitchImproved, overallChange, overallImproved,
      current.depth - baseline.depth, current.resonance - baseline.resonance,
      current.power - baseline.power, current.control - baseline.control,
      summary)
  }

  /** An analysis compared with itself shows no change and no improvement. */
  lemma CompareWithItself(a: SimpleVoiceAnalysis)
    ensures var c := CompareVoiceAnalyses(a, a);
      && c.pitchChange == 0 && c.overallChange == 0.0 && c.depthChange == 0.0
      && c.resonanceChange == 0.0 && c.powerChange == 0.0 && c.controlChange == 0.0
      && !c.pitchImproved && !c.overallImproved && c.summary == NoProgress
  {
  }

  /** Swapping the two analyses negates every change, and a pitch improvement
      one way is never one the other way. */
  lemma CompareAntisymmetric(a: SimpleVoiceAnalysis, b: SimpleVoiceAnalysis)
    ensures CompareVoiceAnalyses(a, b).pitchChange == -CompareVoiceAnalyses(b, a).pitchChange
    ensures CompareVoiceAnalyses(a, b).overallChange == -CompareVoiceAnalyses(b, a).overallChange
    ensures !(CompareVoiceAnalyses(a, b).pitchImproved && CompareVoiceAnalyses(b, a).pitchImproved)
    ensures !(CompareVoiceAnalyses(a, b).overallImproved && CompareVoiceAnalyses(b, a).overallImproved)
  {
  }

  // The messages of each rule, in the order the rules are checked.
  const DepthLow := [
    "Practice speaking from your chest, not your head voice. Place your hand on your chest and feel vibrations.",
    "Use diaphragmatic breathing - breathe from your belly to support a naturally lower pitch."]
  const DepthMid := [
    "Your pitch is in a good range. Try relaxing your throat muscles while speaking to go deeper."]
  const ResonanceLow := [
    "Lower your larynx using the \"yawn technique\" - start a yawn and hold that open throat feeling while speaking.",
    "Imagine speaking with space in the back of your mouth for a fuller, more resonant sound."]
  const PowerLow := [
    "Project your voice more. Speak slightly louder from your diaphragm for more bass presence and authority.",
    "Practice the \"actor's formant\" - professional speakers have more energy in the 3-4kHz range."]
  const ControlLow := [
    "Focus on breath support to improve voice steadiness. Shaky voice can signal nervousness.",
    "Practice sustained vowels (\"aaah\") for 5-10 seconds to build vocal control."]
  const VtlShort := [
    "Practice the \"Big Dog, Little Dog\" exercise to explore your full resonance range."]
  const SpeakingStyle := [
    "Slow down your speech. Rushed speaking tends to raise pitch.",
    "End sentences with falling intonation, not rising (avoid \"uptalk\")."]
  const Defaults := [
    "Your voice has strong masculine characteristics! Keep practicing to maintain these qualities.",
    "Focus on consistency - use your deep voice in all situations, not just when recording."]

  function DepthRule(a: SimpleVoiceAnalysis): seq<string> {
    if a.depth < 50.0 then DepthLow else if a.depth < 70.0 then DepthMid else []
  }

  function ResonanceRule(a: SimpleVoiceAnalysis): seq<string> {
    if a.resonance < 60.0 then ResonanceLow else []
  }

  function PowerRule(a: SimpleVoiceAnalysis): seq<string> {
    if a.power < 50.0 then PowerLow else []
  }

  function ControlRule(a: SimpleVoiceAnalysis): seq<string> {
    if a.control < 60.0 then ControlLow else []
  }

  function VtlRule(a: SimpleVoiceAnalysis): seq<string> {
    if a.vocalTractLength < 16.0 then VtlShort else []
  }

  function StyleRule(a: SimpleVoiceAnalysis): seq<string> {
    if a.category == Higher || a.category == Average then SpeakingStyle else []
  }

  /** The messages of the rules that fire, in rule order. */
  function RuleMessages(a: SimpleVoiceAnalysis): seq<string> {
    DepthRule(a) + ResonanceRule(a) + PowerRule(a) + ControlRule(a) + VtlRule(a) + StyleRule(a)
  }

  /** No rule fires: every score is good and the voice is deep. */
  predicate NoRuleFires(a: SimpleVoiceAnalysis) {
    && a.depth >= 70.0 && a.resonance >= 60.0 && a.power >= 50.0 && a.control >= 60.0
    && a.vocalTractLength >= 16.0 && a.category != Higher && a.category != Average
  }

  /** The recommendations `getTrainingRecommendations` returns. */
  function Recommendations(a: SimpleVoiceAnalysis): seq<string> {
    if RuleMessages(a) == [] then Defaults else RuleMessages(a)
  }

  /** `getTrainingRecommendations`, pushing each rule's messages in turn. */
  method GetTrainingRecommendations(a: SimpleVoiceAnalysis) returns (recommendations: seq<string>)
    ensures recommendations == Recommendations(a)
  {
    recommendations := [];
    if a.depth < 50.0 {
      recommendations := recommendations + [DepthLow[0]];
      recommendations := recommendations + [DepthLow[1]];
    } else if a.depth < 70.0 {
      recommendations := recommendations + [DepthMid[0]];
    }
    assert recommendations == DepthRule(a);
    if a.resonance < 60.0 {
      recommendations := recommendations + [ResonanceLow[0]];
      recommendations := recommendations + [ResonanceLow[1]];
    }
    assert recommendations == DepthRule(a) + ResonanceRule(a);
    if a.power < 50.0 {
      recommendations := recommendations + [PowerLow[0]];
      recommendations := recommendations + [PowerLow[1]];
    }
    assert recommendations == DepthRule(a) + ResonanceRule(a) + PowerRule(a);
    if a.control < 60.0 {
      recommendations := recommendations + [ControlLow[0]];
      recommendations := recommendations + [ControlLow[1]];
    }
    assert recommendations == DepthRule(a) + ResonanceRule(a) + PowerRule(a) + ControlRule(a);
    if a.vocalTractLength < 16.0 {
      recommendations := recommendations + [VtlShort[0]];
    }
    assert recommendations == DepthRule(a) + ResonanceRule(a) + PowerRule(a) + ControlRule(a) + VtlRule(a);
    if a.category == Higher || a.category == Average {
      recommendations := recommendations + [SpeakingStyle[0]];
      recommendations := recommendations + [SpeakingStyle[1]];
    }
    assert recommendations == RuleMessages(a);
    if |recommendations| == 0 {
      recommendations := recommendations + [Defaults[0]];
      recommendations := recommendations + [Defaults[1]];
    }
  }

  /** The list is never empty and holds between one and eleven messages. */
  lemma RecommendationsBounds(a: SimpleVoiceAnalysis)
    ensures 1 <= |Recommendations(a)| <= 11
  {
  }

  /** The two default messages come back exactly when no rule fires, and
      otherwise the list is the fired rules' messages in rule order. */
  lemma RecommendationsDefaultsIffNoRule(a: SimpleVoiceAnalysis)
    ensures RuleMessages(a) == [] <==> NoRuleFires(a)
    ensures Recommendations(a) == Defaults <==> NoRuleFires(a)
    ensures !NoRuleFires(a) ==> Recommendations(a) == RuleMessages(a)
  {
    if !NoRuleFires(a) {
      var r := RuleMessages(a);
      assert |r| > 0;
      assert r[0] != Defaults[0];
    }
  }
}
