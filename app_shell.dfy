/**
 * The application shell: which screen is shown for the session context's `loading` and
 * `isAuthenticated`, and the `prediction` slot that the loan form's results overwrite and
 * the result card reads.
 */
module AppShell {
  import opened Common
  import ResultCard

  /** The three screens: the spinner, the sign-in form, and the main screen with its result card. */
  datatype View = Spinner | SignInScreen | MainScreen(card: Option<ResultCard.Card>)

  /** The view gate: loading first, then authentication. */
  function SelectView(loading: bool, isAuthenticated: bool, prediction: Option<PredictionResult>): (v: View)
    ensures v.Spinner? <==> loading
    ensures v.SignInScreen? <==> !loading && !isAuthenticated
    ensures v.MainScreen? <==> !loading && isAuthenticated
    ensures v.MainScreen? ==> v.card == ResultCard.Render(prediction)
  {
    if loading then Spinner
    else if !isAuthenticated then SignInScreen
    else MainScreen(ResultCard.Render(prediction))
  }

  /** While loading, the screen depends on nothing else. */
  lemma LoadingHidesEverything(a1: bool, a2: bool, p1: Option<PredictionResult>, p2: Option<PredictionResult>)
    ensures SelectView(true, a1, p1) == SelectView(true, a2, p2) == Spinner
  {
  }

  /** The main screen shows a result card exactly when there is a prediction. */
  lemma CardShownIffPrediction(p: Option<PredictionResult>)
    ensures SelectView(false, true, p).card.Some? <==> p.Some?
  {
  }

  /** The `prediction` slot after a run of `onResult` calls, each replacing the last. */
  function AfterResults(initial: Option<PredictionResult>, results: seq<PredictionResult>): Option<PredictionResult>
    decreases |results|
  {
    if results == [] then initial else AfterResults(Some(results[0]), results[1..])
  }

  /** Results never accumulate: after any non-empty run the slot holds the last result only. */
  lemma {:induction false} LatestResultWins(initial: Option<PredictionResult>, results: seq<PredictionResult>)
    requires results != []
    ensures AfterResults(initial, results) == Some(results[|results| - 1])
    decreases |results|
  {
    if |results| > 1 {
      LatestResultWins(Some(results[0]), results[1..]);
    }
  }

  /** The shell's own state. */
  class AuthWrapper {
    var prediction: Option<PredictionResult>

    constructor ()
      ensures prediction == None
    {
      prediction := None;
    }

    /** `setPrediction`, passed to the loan form as `onResult`: the new result replaces the old one. */
    method SetPrediction(result: PredictionResult)
      modifies this
      ensures prediction == Some(result)
      ensures prediction == AfterResults(old(prediction), [result])
    {
      prediction := Some(result);
    }

    /** The screen for the session context's current flags: the main screen carries the card for the slot. */
    function View(loading: bool, isAuthenticated: bool): (v: View)
      reads this
      ensures v.Spinner? <==> loading
      ensures v.MainScreen? <==> !loading && isAuthenticated
      ensures v.SignInScreen? <==> !loading && !isAuthenticated
      ensures v.MainScreen? ==> v.card == ResultCard.Render(prediction)
    {
      SelectView(loading, isAuthenticated, prediction)
    }
  }
}
