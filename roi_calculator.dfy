/**
 * ROICalculator of the client: nothing for missing market data, otherwise a
 * card styled by the data's investment recommendation.
 */
module RoiCalculator {
  import opened Values

  datatype RecIcon = TrendingUp | Target | AlertTriangle

  datatype RecommendationStyle = RecommendationStyle(
    bg: string,
    text: string,
    border: string,
    icon: RecIcon,
    labelText: string)

  const LABELS: set<string> := {"Strong Buy", "Buy", "Hold", "Review"}

  /** `getRecommendationStyle`: a strict-equality switch on the recommendation, with
      "Review" for every other value, undefined and non-strings included. */
  function StyleFor(recommendation: Json): (style: RecommendationStyle)
    ensures style.labelText in LABELS
    ensures style.labelText == "Strong Buy" <==> recommendation == JString("STRONG_BUY")
    ensures style.labelText == "Buy" <==> recommendation == JString("BUY")
    ensures style.labelText == "Hold" <==> recommendation == JString("HOLD")
    ensures style.labelText == "Review" <==> recommendation !in {JString("STRONG_BUY"), JString("BUY"), JString("HOLD")}
    ensures style.icon == TrendingUp <==> style.labelText in {"Strong Buy", "Buy"}
    ensures style.icon == Target <==> style.labelText == "Hold"
    ensures style.icon == AlertTriangle <==> style.labelText == "Review"
  {
    match recommendation
    case JString("STRONG_BUY") =>
      RecommendationStyle("bg-green-100", "text-green-800", "border-green-200", TrendingUp, "Strong Buy")
    case JString("BUY") =>
      RecommendationStyle("bg-emerald-100", "text-emerald-800", "border-emerald-200", TrendingUp, "Buy")
    case JString("HOLD") =>
      RecommendationStyle("bg-yellow-100", "text-yellow-800", "border-yellow-200", Target, "Hold")
    case _ =>
      RecommendationStyle("bg-orange-100", "text-orange-800", "border-orange-200", AlertTriangle, "Review")
  }

  /** The parts of the card that depend on the data. */
  datatype RoiCard = RoiCard(molecule: string, style: RecommendationStyle, showsThesis: bool)

  /** The component: null for falsy data, else a card for the molecule. */
  function Render(data: Json, molecule: string): (card: Option<RoiCard>)
    ensures card.None? <==> !Truthy(data)
    ensures card.Some? ==> card.value.molecule == molecule
    ensures card.Some? ==> card.value.style == StyleFor(Property(data, "recommendation"))
    ensures card.Some? ==> (card.value.showsThesis <==> Truthy(Property(data, "investment_thesis")))
  {
    if !Truthy(data) then None
    else Some(RoiCard(molecule, StyleFor(Property(data, "recommendation")),
                      Truthy(Property(data, "investment_thesis"))))
  }

  /** Market data without a recommendation field is shown for review. */
  lemma MissingRecommendationIsReview(fields: map<string, Json>, molecule: string)
    requires "recommendation" !in fields
    ensures Render(JObject(fields), molecule).Some?
    ensures Render(JObject(fields), molecule).value.style.labelText == "Review"
  {
  }
}
