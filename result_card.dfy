/**
 * The result card: what the client shows for the latest prediction. Nothing is shown for
 * no prediction; otherwise a colour and an icon chosen from the probability, a headline
 * chosen from the server's boolean, and the probability as a rounded percentage.
 */
module ResultCard {
  import opened Common

  /** The palette colour of the card. */
  datatype Color = Success | Warning | Error

  /** The icon at the top of the card. */
  datatype Icon = CheckCircleIcon | WarningIcon | ErrorIcon

  /** Cutoffs 0.8 and 0.5, each band including its lower cutoff. */
  function ColorFor(prob: real): (c: Color)
    ensures c == Success <==> prob >= 0.8
    ensures c == Warning <==> 0.5 <= prob < 0.8
    ensures c == Error <==> prob < 0.5
  {
    if prob >= 0.8 then Success
    else if prob >= 0.5 then Warning
    else Error
  }

  /** The icon paired with each colour: the check for success, the warning sign, the error sign. */
  function IconFor(c: Color): (i: Icon)
    ensures i.CheckCircleIcon? <==> c.Success?
    ensures i.WarningIcon? <==> c.Warning?
    ensures i.ErrorIcon? <==> c.Error?
  {
    match c
    case Success => CheckCircleIcon
    case Warning => WarningIcon
    case Error => ErrorIcon
  }

  /** 0 for the best colour, 2 for the worst. */
  function Rank(c: Color): nat
  {
    match c
    case Success => 0
    case Warning => 1
    case Error => 2
  }

  /**
   * `Math.round(prob * 100)`: the nearest integer, halves rounded up; so the percentage is
   * within one half of `prob * 100`.
   */
  function Pct(prob: real): (pct: int)
    ensures pct as real - 0.5 <= prob * 100.0 < pct as real + 0.5
  {
    (prob * 100.0 + 0.5).Floor
  }

  /** The headline text, chosen by the server's boolean alone; its first symbol is a check mark exactly when the loan is paid back. */
  function Headline(loanWillBePaidBack: bool): (h: string)
    ensures |h| > 2 && h[1] == ' '
    ensures h[0] == '\U{2705}' <==> loanWillBePaidBack
    ensures h[0] == '\U{274C}' <==> !loanWillBePaidBack
  {
    if loanWillBePaidBack then "\U{2705} Loan Will Be Paid Back" else "\U{274C} High Default Risk"
  }

  /** What the card shows: icon, colour, headline, percentage, progress value and the two chips. */
  datatype Card = Card(
    icon: Icon,
    color: Color,
    headline: string,
    pct: int,
    progressValue: int,
    riskChip: string,
    confidenceChip: string)

  /** The card for `data`, or nothing when there is no prediction. */
  function Render(data: Option<PredictionResult>): (card: Option<Card>)
    ensures card.None? <==> data.None?
    ensures data.Some? ==>
              var p := data.value.loanPaidBackProbability;
              && card.value.color == ColorFor(p)
              && card.value.icon == IconFor(card.value.color)
              && card.value.headline == Headline(data.value.loanWillBePaidBack)
              && card.value.pct == card.value.progressValue == Pct(p)
              && card.value.riskChip == data.value.riskLevel
              && card.value.confidenceChip == "Confidence: " + data.value.confidence
  {
    match data
    case None => None
    case Some(d) =>
      var prob := d.loanPaidBackProbability;
      var pct := Pct(prob);
      var color := ColorFor(prob);
      Some(Card(IconFor(color), color, Headline(d.loanWillBePaidBack), pct, pct, d.riskLevel,
                "Confidence: " + d.confidence))
  }

  /** A higher probability never gets a worse colour. */
  lemma ColorMonotonic(p1: real, p2: real)
    requires p1 >= p2
    ensures Rank(ColorFor(p1)) <= Rank(ColorFor(p2))
  {
  }

  /** The icon and the colour determine each other. */
  lemma IconOneToOne(c1: Color, c2: Color)
    ensures IconFor(c1) == IconFor(c2) <==> c1 == c2
  {
  }

  /** A probability in [0, 1] shows as a percentage in 0..100. */
  lemma PctInRange(prob: real)
    requires 0.0 <= prob <= 1.0
    ensures 0 <= Pct(prob) <= 100
  {
  }

  /** The two headlines differ, so the headline tells the server's boolean back. */
  lemma HeadlineDeterminesBoolean(b1: bool, b2: bool)
    ensures Headline(b1) == Headline(b2) <==> b1 == b2
  {
  }

  /**
   * The headline ignores the colour: a probability of 0.9 with a negative server verdict
   * shows the success colour under the High Default Risk headline, and 0.3 with a positive
   * verdict shows the error colour under the Paid Back headline.
   */
  lemma HeadlineAndColorMayDisagree(level: string, conf: string)
    ensures var card := Render(Some(PredictionResult(0.9, false, level, conf))).value;
            card.color == Success && card.headline == Headline(false)
    ensures var card := Render(Some(PredictionResult(0.3, true, level, conf))).value;
            card.color == Error && card.headline == Headline(true)
  {
  }
}
