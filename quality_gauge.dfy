/** The quality gauge (components/measure/quality-gauge.tsx): a colour and a
    status word for a 0-100 score, and the bar's clamped fill. */
module QualityGauge {
  import opened Js
  import OpensmileTypes

  /** The theme colours the measurement cards use. */
  datatype ThemeColor = SuccessContent | BrandContent | AlertContent | ErrorContent

  /** `getValueColor`. */
  function ValueColor(value: real): (c: ThemeColor)
    ensures c == SuccessContent <==> value >= 81.0
    ensures c == BrandContent <==> 61.0 <= value < 81.0
    ensures c == AlertContent <==> 41.0 <= value < 61.0
    ensures c == ErrorContent <==> value < 41.0
  {
    if value >= 81.0 then SuccessContent
    else if value >= 61.0 then BrandContent
    else if value >= 41.0 then AlertContent
    else ErrorContent
  }

  /** `getStatusLabel`. */
  function StatusLabel(value: real): (s: string)
    ensures value >= 81.0 ==> s == "Excellent"
    ensures 61.0 <= value < 81.0 ==> s == "Good"
    ensures 41.0 <= value < 61.0 ==> s == "Average"
    ensures value < 41.0 ==> s == "Needs Work"
  {
    if value >= 81.0 then "Excellent"
    else if value >= 61.0 then "Good"
    else if value >= 41.0 then "Average"
    else "Needs Work"
  }

  /** The label that goes with each colour. */
  function LabelOfColor(c: ThemeColor): string {
    match c
    case SuccessContent => "Excellent"
    case BrandContent => "Good"
    case AlertContent => "Average"
    case ErrorContent => "Needs Work"
  }

  /** Colour and label use the same thresholds, so each label always comes
      with the same colour. */
  lemma ColorMatchesLabel(value: real)
    ensures StatusLabel(value) == LabelOfColor(ValueColor(value))
  {
  }

  function ColorRank(c: ThemeColor): nat {
    match c
    case ErrorContent => 0
    case AlertContent => 1
    case BrandContent => 2
    case SuccessContent => 3
  }

  /** A higher score never gets a worse colour (and so label). */
  lemma ColorMonotone(x: real, y: real)
    requires x <= y
    ensures ColorRank(ValueColor(x)) <= ColorRank(ValueColor(y))
  {
  }

  /** `clampedValue`: the fill of the bar. */
  function ClampedValue(value: real): (v: real)
    ensures 0.0 <= v <= 100.0
    ensures 0.0 <= value <= 100.0 ==> v == value
    ensures value < 0.0 ==> v == 0.0
    ensures value > 100.0 ==> v == 100.0
  {
    Max(0.0, Min(100.0, value))
  }

  /** The gauge's thresholds sit one point above those of the quality
      category: a score of 80, 60 or 40 falls into the upper category but is
      shown with the lower word. */
  lemma GaugeDiffersFromCategoryAtBoundaries()
    ensures OpensmileTypes.CategorizeQuality(80.0) == OpensmileTypes.Excellent && StatusLabel(80.0) == "Good"
    ensures OpensmileTypes.CategorizeQuality(60.0) == OpensmileTypes.Good && StatusLabel(60.0) == "Average"
    ensures OpensmileTypes.CategorizeQuality(40.0) == OpensmileTypes.AverageQuality && StatusLabel(40.0) == "Needs Work"
  {
  }
}
