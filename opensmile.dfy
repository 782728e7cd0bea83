/** The TypeScript side of the voice-analysis module
    (modules/expo-opensmile/src/index.ts): the analysis configuration passed to
    the native engine, the vocal-tract-length estimate and the pitch percentile. */
module Opensmile {
  import opened Js

  /** `AnalysisConfig`: every field optional. */
  datatype AnalysisConfig = AnalysisConfig(
    frameSize: Option<real>,
    frameStep: Option<real>,
    f0Min: Option<real>,
    f0Max: Option<real>,
    includeLldTimeSeries: Option<bool>,
    includeRawFeatures: Option<bool>)

  const NoConfig := AnalysisConfig(None, None, None, None, None, None)

  /** The defaults `analyzeVoice` starts from. */
  const DefaultConfig := AnalysisConfig(
    Some(25.0), Some(10.0), Some(50.0), Some(400.0), Some(false), Some(false))

  /** One field of an object spread `{...base, ...over}`. */
  function Override<T>(base: Option<T>, over: Option<T>): Option<T> {
    if over.Some? then over else base
  }

  /** `{...defaultConfig, ...config}`: the configuration the native engine receives. */
  function EffectiveConfig(config: Option<AnalysisConfig>): (r: AnalysisConfig)
    ensures config.None? ==> r == DefaultConfig
    ensures config.Some? ==>
      && r.frameSize == (if config.value.frameSize.Some? then config.value.frameSize else Some(25.0))
      && r.frameStep == (if config.value.frameStep.Some? then config.value.frameStep else Some(10.0))
      && r.f0Min == (if config.value.f0Min.Some? then config.value.f0Min else Some(50.0))
      && r.f0Max == (if config.value.f0Max.Some? then config.value.f0Max else Some(400.0))
      && r.includeLldTimeSeries == (if config.value.includeLldTimeSeries.Some? then config.value.includeLldTimeSeries else Some(false))
      && r.includeRawFeatures == (if config.value.includeRawFeatures.Some? then config.value.includeRawFeatures else Some(false))
  {
    var c := if config.Some? then config.value else NoConfig;
    AnalysisConfig(
      Override(DefaultConfig.frameSize, c.frameSize),
      Override(DefaultConfig.frameStep, c.frameStep),
      Override(DefaultConfig.f0Min, c.f0Min),
      Override(DefaultConfig.f0Max, c.f0Max),
      Override(DefaultConfig.includeLldTimeSeries, c.includeLldTimeSeries),
      Override(DefaultConfig.includeRawFeatures, c.includeRawFeatures))
  }

  /** The effective configuration is always complete, and a complete
      configuration passes through unchanged. */
  lemma EffectiveConfigComplete(config: Option<AnalysisConfig>)
    ensures var r := EffectiveConfig(config);
      r.frameSize.Some? && r.frameStep.Some? && r.f0Min.Some? && r.f0Max.Some?
      && r.includeLldTimeSeries.Some? && r.includeRawFeatures.Some?
    ensures EffectiveConfig(Some(EffectiveConfig(config))) == EffectiveConfig(config)
  {
  }

  /** Speed of sound in cm/s. */
  const SpeedOfSound: real := 35000.0

  /** `estimateVocalTractLength`: the mean of the quarter-wave estimate from F1
      and the formant-dispersion estimate from F3 - F1, in cm. */
  function EstimateVocalTractLength(f1: real, f2: real, f3: real): (vtl: real)
    requires f1 != 0.0 && f3 != f1
    ensures 0.0 < f1 < f3 ==> vtl > 0.0
  {
    var vtlFromF1 := SpeedOfSound / (4.0 * f1);
    var avgFormantSpacing := (f3 - f1) / 2.0;
    var vtlFromDispersion := SpeedOfSound / (2.0 * avgFormantSpacing);
    assert 0.0 < f1 < f3 ==> vtlFromF1 > 0.0 && vtlFromDispersion > 0.0;
    (vtlFromF1 + vtlFromDispersion) / 2.0
  }

  /** The estimate is the mean of 35000/(4·F1) and 35000/(F3 − F1); F2 plays no part. */
  lemma VtlFormula(f1: real, f2: real, f3: real, f2': real)
    requires f1 != 0.0 && f3 != f1
    ensures EstimateVocalTractLength(f1, f2, f3)
         == (35000.0 / (4.0 * f1) + 35000.0 / (f3 - f1)) / 2.0
    ensures EstimateVocalTractLength(f1, f2, f3) == EstimateVocalTractLength(f1, f2', f3)
  {
    assert 2.0 * ((f3 - f1) / 2.0) == f3 - f1;
  }

  /** With F1 fixed, a higher F3 gives a shorter estimate. */
  lemma VtlDecreasesInF3(f1: real, f2: real, f3: real, f3': real)
    requires 0.0 < f1 < f3 < f3'
    ensures EstimateVocalTractLength(f1, f2, f3') < EstimateVocalTractLength(f1, f2, f3)
  {
    VtlFormula(f1, f2, f3, f2);
    VtlFormula(f1, f2, f3', f2);
    var d, d' := f3 - f1, f3' - f1;
    assert 0.0 < d < d';
    assert 35000.0 / d' < 35000.0 / d by {
      assert 35000.0 / d' * d' == 35000.0;
      assert 35000.0 / d * d == 35000.0;
      assert 35000.0 / d' * d < 35000.0 / d' * d';
    }
  }

  /** The comparison sentence shown beside the percentile. */
  function PitchComparison(pitchHz: real): (s: string)
    ensures pitchHz < 85.0 ==> s == "Deeper than Morgan Freeman"
    ensures 85.0 <= pitchHz < 100.0 ==> s == "Similar to Morgan Freeman"
    ensures 100.0 <= pitchHz < 115.0 ==> s == "Deeper than average"
    ensures 115.0 <= pitchHz < 130.0 ==> s == "Slightly below average"
    ensures 130.0 <= pitchHz ==> s == "Average male range"
  {
    if pitchHz < 85.0 then "Deeper than Morgan Freeman"
    else if pitchHz < 100.0 then "Similar to Morgan Freeman"
    else if pitchHz < 115.0 then "Deeper than average"
    else if pitchHz < 130.0 then "Slightly below average"
    else "Average male range"
  }

  datatype Percentile = Percentile(percentile: int, comparison: string)

  /** The z-score of a pitch in the male distribution (mean 120 Hz, sd 20 Hz). */
  function ZScore(pitchHz: real): real {
    (pitchHz - 120.0) / 20.0
  }

  /** `getVoicePercentile`. The exponential is not modelled: `expOfScaledZ` is
      the value of `Math.exp(-1.7 * ZScore(pitchHz))`, supplied by the caller. */
  function GetVoicePercentile(pitchHz: real, expOfScaledZ: real): (r: Percentile)
    requires expOfScaledZ > 0.0
    ensures 0 <= r.percentile <= 100
    ensures r.comparison == PitchComparison(pitchHz)
  {
    var logistic := 1.0 / (1.0 + expOfScaledZ);
    assert 0.0 < logistic < 1.0;
    RoundBetween((1.0 - logistic) * 100.0, 0, 100);
    Percentile(Round((1.0 - logistic) * 100.0), PitchComparison(pitchHz))
  }

  /** At the mean pitch the z-score is 0, exp(0) = 1 and the percentile is 50. */
  lemma PercentileAtMean()
    ensures ZScore(120.0) == 0.0
    ensures GetVoicePercentile(120.0, 1.0).percentile == 50
  {
  }

  /** A larger exponential (a lower pitch) never lowers the percentile. */
  lemma PercentileMonotone(pitchHz: real, e: real, e': real)
    requires 0.0 < e <= e'
    ensures GetVoicePercentile(pitchHz, e).percentile <= GetVoicePercentile(pitchHz, e').percentile
  {
    var l, l' := 1.0 / (1.0 + e), 1.0 / (1.0 + e');
    assert l - l' == (e' - e) / ((1.0 + e) * (1.0 + e'));
    RoundMonotone((1.0 - l) * 100.0, (1.0 - l') * 100.0);
  }
}
