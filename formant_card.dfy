/** The formant card (components/measure/formant-card.tsx): the rating of a
    vocal tract length and the colour it is shown in. */
module FormantCard {
  import QualityGauge

  datatype RatingColor = Success | Brand | Alert

  datatype VtlRating = VtlRating(title: string, color: RatingColor)

  /** `getVtlRating`: deep from 17 cm, average from 15 cm, else higher. */
  function GetVtlRating(vtl: real): (r: VtlRating)
    ensures r == VtlRating("Deep", Success) <==> vtl >= 17.0
    ensures r == VtlRating("Average", Brand) <==> 15.0 <= vtl < 17.0
    ensures r == VtlRating("Higher", Alert) <==> vtl < 15.0
  {
    if vtl >= 17.0 then VtlRating("Deep", Success)
    else if vtl >= 15.0 then VtlRating("Average", Brand)
    else VtlRating("Higher", Alert)
  }

  /** Each label always comes with the same colour. */
  lemma LabelDeterminesColor(x: real, y: real)
    ensures GetVtlRating(x).title == GetVtlRating(y).title <==> GetVtlRating(x).color == GetVtlRating(y).color
  {
  }

  function DepthRank(c: RatingColor): nat {
    match c
    case Alert => 0
    case Brand => 1
    case Success => 2
  }

  /** A longer vocal tract never gets a higher-voice rating. */
  lemma VtlRatingMonotone(x: real, y: real)
    requires x <= y
    ensures DepthRank(GetVtlRating(x).color) <= DepthRank(GetVtlRating(y).color)
  {
  }

  /** `vtlColor`: the theme colour of a rating colour. */
  function VtlColor(c: RatingColor): (t: QualityGauge.ThemeColor)
    ensures c == Success <==> t == QualityGauge.SuccessContent
    ensures c == Brand <==> t == QualityGauge.BrandContent
    ensures c == Alert <==> t == QualityGauge.AlertContent
  {
    match c
    case Success => QualityGauge.SuccessContent
    case Brand => QualityGauge.BrandContent
    case Alert => QualityGauge.AlertContent
  }
}
