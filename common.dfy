/** Types shared by the scoring service and the browser client. */
module Common {

  /** A value that may be absent (`null`/`undefined` on the client, a missing key on the server). */
  datatype Option<+T> = None | Some(value: T)

  /**
   * The body of a successful prediction response, as the server builds it and as the
   * client receives it in `response.data`.
   */
  datatype PredictionResult = PredictionResult(
    loanPaidBackProbability: real,
    loanWillBePaidBack: bool,
    riskLevel: string,
    confidence: string)

  /**
   * JavaScript's `s || fallback` where `s` is an optional string: an absent value and the
   * empty string are both falsy, so both fall through to `fallback`.
   */
  function OrElse(s: Option<string>, fallback: string): (r: string)
    ensures s.Some? && s.value != "" ==> r == s.value
    ensures s.None? || s.value == "" ==> r == fallback
  {
    if s.Some? && s.value != "" then s.value else fallback
  }
}
