/** The measurement results screen (app/measure/results.tsx): where the pitch
    sits on the 60-200 Hz scale, the words shown under the four quality
    scores, and the recommendations for a parsed analysis. */
module ResultsScreen {
  import opened Js
  import VoiceAnalyzer

  const ScaleMin := 60.0
  const ScaleMax := 200.0

  /** `pitchPercentage`: the pitch's position on the scale, in percent. */
  function PitchPercentage(hz: real): (p: real)
    ensures 0.0 <= p <= 100.0
    ensures hz <= ScaleMin ==> p == 0.0
    ensures hz >= ScaleMax ==> p == 100.0
    ensures ScaleMin <= hz <= ScaleMax ==> p == (hz - ScaleMin) / (ScaleMax - ScaleMin) * 100.0
  {
    Max(0.0, Min(100.0, (hz - ScaleMin) / (ScaleMax - ScaleMin) * 100.0))
  }

  /** A higher pitch never sits further left on the scale. */
  lemma PitchPercentageMonotone(x: real, y: real)
    requires x <= y
    ensures PitchPercentage(x) <= PitchPercentage(y)
  {
    assert (x - ScaleMin) / (ScaleMax - ScaleMin) * 100.0 <= (y - ScaleMin) / (ScaleMax - ScaleMin) * 100.0;
  }

  /** The three levels a score's caption distinguishes. */
  datatype Level = Low | Moderate | High

  function LevelRank(l: Level): nat {
    match l
    case Low => 0
    case Moderate => 1
    case High => 2
  }

  /** The caption thresholds shared by the four scores: 70 and 40. */
  function LevelOf(score: real): (l: Level)
    ensures l == High <==> score >= 70.0
    ensures l == Moderate <==> 40.0 <= score < 70.0
    ensures l == Low <==> score < 40.0
  {
    if score >= 70.0 then High else if score >= 40.0 then Moderate else Low
  }

  /** A higher score never gets a lower caption. */
  lemma LevelMonotone(x: real, y: real)
    requires x <= y
    ensures LevelRank(LevelOf(x)) <= LevelRank(LevelOf(y))
  {
  }

  function DepthLabel(depth: real): (s: string)
    ensures LevelOf(depth) == High ==> s == "Deep"
    ensures LevelOf(depth) == Moderate ==> s == "Average"
    ensures LevelOf(depth) == Low ==> s == "Higher"
  {
    if depth >= 70.0 then "Deep" else if depth >= 40.0 then "Average" else "Higher"
  }

  function ResonanceLabel(resonance: real): (s: string)
    ensures LevelOf(resonance) == High ==> s == "Full"
    ensures LevelOf(resonance) == Moderate ==> s == "Moderate"
    ensures LevelOf(resonance) == Low ==> s == "Thin"
  {
    if resonance >= 70.0 then "Full" else if resonance >= 40.0 then "Moderate" else "Thin"
  }

  function PowerLabel(power: real): (s: string)
    ensures LevelOf(power) == High ==> s == "Strong"
    ensures LevelOf(power) == Moderate ==> s == "Moderate"
    ensures LevelOf(power) == Low ==> s == "Soft"
  {
    if power >= 70.0 then "Strong" else if power >= 40.0 then "Moderate" else "Soft"
  }

  function ControlLabel(control: real): (s: string)
    ensures LevelOf(control) == High ==> s == "Steady"
    ensures LevelOf(control) == Moderate ==> s == "Moderate"
    ensures LevelOf(control) == Low ==> s == "Variable"
  {
    if control >= 70.0 then "Steady" else if control >= 40.0 then "Moderate" else "Variable"
  }

  /** The recommendations shown: none when the analysis parameter was absent
      or did not parse, else the analyser's list, which is never empty. */
  function ResultsRecommendations(analysis: Option<VoiceAnalyzer.SimpleVoiceAnalysis>): (r: seq<string>)
    ensures analysis.None? <==> r == []
    ensures analysis.Some? ==> r == VoiceAnalyzer.Recommendations(analysis.value)
  {
    if analysis.Some? then
      VoiceAnalyzer.RecommendationsBounds(analysis.value);
      VoiceAnalyzer.Recommendations(analysis.value)
    else []
  }
}
