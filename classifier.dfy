/** The fit tiers of the screening callback: two fixed thresholds split the
    score range into three bands, each closed at its lower end. The tier picks
    the recommendation text shown in the results table and the colour the
    callback computes for the row. */
module Classifier {

  /** Lowest score that is a strong fit. */
  const StrongThreshold: real := 75.0

  /** Lowest score that is a moderate fit. */
  const ModerateThreshold: real := 50.0

  datatype Tier = StrongFit | ModerateFit | PoorFit

  datatype Colour = Green | Orange | Red

  /** The score band that belongs to each tier, written as intervals:
      [75, oo) for a strong fit, [50, 75) for a moderate fit, (-oo, 50) for a
      poor fit. This is the reference the classifier is checked against. */
  predicate InBand(t: Tier, score: real) {
    match t
    case StrongFit => StrongThreshold <= score
    case ModerateFit => ModerateThreshold <= score < StrongThreshold
    case PoorFit => score < ModerateThreshold
  }

  /** The chained conditional that picks the recommendation. It is total, and
      the tier it picks is the one and only tier whose band holds the score. */
  function Classify(score: real): (t: Tier)
    ensures InBand(t, score)
    ensures forall u: Tier :: InBand(u, score) ==> u == t
  {
    if score >= StrongThreshold then StrongFit
    else if score >= ModerateThreshold then ModerateFit
    else PoorFit
  }

  /** The colour each tier is shown in. */
  function TierColour(t: Tier): Colour {
    match t
    case StrongFit => Green
    case ModerateFit => Orange
    case PoorFit => Red
  }

  /** The chained conditional that picks the row colour. It tests the same
      thresholds as Classify, so colour and tier always agree. */
  function ColourOf(score: real): (c: Colour)
    ensures c == TierColour(Classify(score))
    ensures c == Green <==> InBand(StrongFit, score)
    ensures c == Orange <==> InBand(ModerateFit, score)
    ensures c == Red <==> InBand(PoorFit, score)
  {
    if score >= StrongThreshold then Green
    else if score >= ModerateThreshold then Orange
    else Red
  }

  /** The text a scored document gets in the "Recommendation" column. */
  function Recommendation(t: Tier): string {
    match t
    case StrongFit => "Strong Fit \U{2705}"
    case ModerateFit => "Moderate Fit \U{26A0}\U{FE0F}"
    case PoorFit => "Poor Fit \U{274C}"
  }

  /** Different tiers read differently in the table. */
  lemma RecommendationInjective(t: Tier, u: Tier)
    ensures Recommendation(t) == Recommendation(u) ==> t == u
  {
  }

  /** The boundary scores go to the higher tier; just below them, the lower. */
  lemma BoundariesResolveUpward()
    ensures Classify(75.0) == StrongFit
    ensures Classify(74.99) == ModerateFit
    ensures Classify(50.0) == ModerateFit
    ensures Classify(49.99) == PoorFit
  {
  }
}
