/**
 * How the server's risk table and the client's colour bands line up for the same
 * probability. The two tables share only the 0.5 cutoff.
 */
module Consistency {
  import opened PredictRouter
  import opened ResultCard

  /** The card shows the error colour exactly when the server labels the same probability High Risk. */
  lemma ErrorColorIffHighRisk(p: real)
    ensures ColorFor(p) == Error <==> AssessRisk(p) == HighRisk
  {
  }

  /**
   * What colour each server band can show with: Very Low Risk always shows success, Medium
   * Risk always warning, and Low Risk either, depending on the side of 0.8.
   */
  lemma ColorForEachBand(p: real)
    ensures AssessRisk(p) == VeryLowRisk ==> ColorFor(p) == Success
    ensures AssessRisk(p) == LowRisk ==> (ColorFor(p) == Success <==> p >= 0.8)
    ensures AssessRisk(p) == LowRisk ==> (ColorFor(p) == Warning <==> p < 0.8)
    ensures AssessRisk(p) == MediumRisk ==> ColorFor(p) == Warning
  {
  }

  /** A Low Risk label can come with either non-error colour. */
  lemma LowRiskSpansTwoColors()
    ensures AssessRisk(0.82) == LowRisk && ColorFor(0.82) == Success
    ensures AssessRisk(0.70) == LowRisk && ColorFor(0.70) == Warning
  {
  }

  /**
   * End to end: the card for a response the server built from a score shows the server's
   * risk label together with the client's colour for the same probability.
   */
  lemma CardForServerResponse(s: Score)
    ensures var card := Render(Common.Some(ResponseBody(s))).value;
            && card.riskChip == AssessRisk(s.proba).RiskLevel()
            && card.color == ColorFor(s.proba)
            && card.headline == Headline(s.prediction)
            && (card.color == Error <==> card.riskChip == "High Risk")
  {
    var band := AssessRisk(s.proba);
    RiskLabelsOneToOne(band, HighRisk);
  }
}
