/**
 * The loan application form: eleven raw string fields edited one at a time, a request body
 * built from them at submit, and a loading flag held while the request is in flight.
 *
 * `parseFloat` and `parseInt` are parameters (abstract parsers), and the outcome of the
 * POST is a parameter or an input of the method that completes the submit.
 */
module LoanFormComponent {
  import opened Common

  /** The fields sent through `parseFloat`. */
  const DecimalFields: seq<string> := ["annual_income", "debt_to_income_ratio", "loan_amount", "interest_rate"]

  /** The field sent through `parseInt`. */
  const IntegerField: string := "credit_score"

  /** The fields sent as they are. */
  const TextFields: seq<string> :=
    ["gender", "marital_status", "education_level", "employment_status", "loan_purpose", "grade_subgrade"]

  /** The eleven names. */
  const FieldNames: set<string> := {
    "annual_income", "debt_to_income_ratio", "credit_score", "loan_amount", "interest_rate",
    "gender", "marital_status", "education_level", "employment_status", "loan_purpose", "grade_subgrade"
  }

  /** The menu items of the five selects. */
  const GenderOptions: seq<string> := ["Male", "Female", "Other"]
  const MaritalStatusOptions: seq<string> := ["Single", "Married", "Divorced"]
  const EducationLevelOptions: seq<string> := ["High School", "Bachelor's", "Master's", "PhD", "Other"]
  const EmploymentStatusOptions: seq<string> := ["Employed", "Unemployed", "Self-employed"]
  const LoanPurposeOptions: seq<string> :=
    ["Debt consolidation", "Home", "Car", "Education", "Business", "Medical", "Vacation", "Other"]

  /** A grade and subgrade as the field's helper text describes it: a letter A to F, then a digit 1 to 5. */
  predicate IsGradeSubgrade(s: string)
  {
    |s| == 2 && 'A' <= s[0] <= 'F' && '1' <= s[1] <= '5'
  }

  /** The form state: field name to the raw text of the input. */
  type FormData = map<string, string>

  /** The form when it mounts: every field present, the five numeric inputs empty. */
  function InitialFormData(): (f: FormData)
    ensures f.Keys == FieldNames
    ensures forall k :: k in DecimalFields ==> f[k] == ""
    ensures f[IntegerField] == ""
    ensures f["gender"] == "Male" && f["marital_status"] == "Single" && f["education_level"] == "High School"
    ensures f["employment_status"] == "Employed" && f["loan_purpose"] == "Debt consolidation"
    ensures f["grade_subgrade"] == "C1"
  {
    map[
      "annual_income" := "",
      "debt_to_income_ratio" := "",
      "credit_score" := "",
      "loan_amount" := "",
      "interest_rate" := "",
      "gender" := "Male",
      "marital_status" := "Single",
      "education_level" := "High School",
      "employment_status" := "Employed",
      "loan_purpose" := "Debt consolidation",
      "grade_subgrade" := "C1"
    ]
  }

  /** Each select starts on one of its own menu items, and the grade starts well formed. */
  lemma InitialSelectionsAreOffered()
    ensures var f := InitialFormData();
            && f["gender"] in GenderOptions && f["marital_status"] in MaritalStatusOptions
            && f["education_level"] in EducationLevelOptions
            && f["employment_status"] in EmploymentStatusOptions
            && f["loan_purpose"] in LoanPurposeOptions
            && IsGradeSubgrade(f["grade_subgrade"])
  {
  }

  /** A JavaScript number as the parsers return it: a value, or NaN when nothing parses. */
  datatype JsNumber = Number(value: real) | NaN

  /** A value of the JSON request body. */
  datatype JsonValue = JNumber(n: JsNumber) | JString(s: string)

  /** The request body: field name to value. */
  type Payload = map<string, JsonValue>

  /** A number that is NaN or has no fractional part. */
  predicate IsIntegral(n: JsNumber)
  {
    n.NaN? || n.value == n.value.Floor as real
  }

  /** The body's value for `credit_score`: the parsed integer as a number, NaN when nothing parses. */
  function IntegerValue(raw: string, parseInt: string -> Option<int>): (n: JsNumber)
    ensures IsIntegral(n)
    ensures n.NaN? <==> parseInt(raw).None?
    ensures parseInt(raw).Some? ==> n.value == parseInt(raw).value as real
  {
    match parseInt(raw) case Some(i) => Number(i as real) case None => NaN
  }

  /**
   * How one field's raw text goes into the body: `credit_score` through `parseInt`, the four
   * decimal fields through `parseFloat`, anything else as the text itself.
   */
  function Coerce(name: string, raw: string, parseFloat: string -> JsNumber, parseInt: string -> Option<int>): (v: JsonValue)
    ensures v.JString? <==> name != IntegerField && name !in DecimalFields
    ensures v.JString? ==> v.s == raw
    ensures name == IntegerField ==> v.n == IntegerValue(raw, parseInt) && IsIntegral(v.n)
    ensures name in DecimalFields ==> v.n == parseFloat(raw)
  {
    if name == IntegerField then
      JNumber(IntegerValue(raw, parseInt))
    else if name in DecimalFields then JNumber(parseFloat(raw))
    else JString(raw)
  }

  /**
   * The body sent at submit: exactly the eleven fields; the six text fields copied as they
   * are, `credit_score` through `parseInt`, the other four numbers through `parseFloat`.
   */
  function BuildPayload(f: FormData, parseFloat: string -> JsNumber, parseInt: string -> Option<int>): (p: Payload)
    requires FieldNames <= f.Keys
    ensures p.Keys == FieldNames
    ensures forall k :: k in TextFields ==> p[k] == JString(f[k])
    ensures forall k :: k in DecimalFields ==> p[k] == JNumber(parseFloat(f[k]))
    ensures p[IntegerField] == JNumber(IntegerValue(f[IntegerField], parseInt))
    ensures p[IntegerField].JNumber? && IsIntegral(p[IntegerField].n)
  {
    map k | k in FieldNames :: Coerce(k, f[k], parseFloat, parseInt)
  }

  /** Keys other than the eleven never reach the body. */
  lemma PayloadIgnoresOtherKeys(f1: FormData, f2: FormData, parseFloat: string -> JsNumber, parseInt: string -> Option<int>)
    requires FieldNames <= f1.Keys && FieldNames <= f2.Keys
    requires forall k :: k in FieldNames ==> f1[k] == f2[k]
    ensures BuildPayload(f1, parseFloat, parseInt) == BuildPayload(f2, parseFloat, parseInt)
  {
  }

  /**
   * Editing one field and then submitting changes only that field's entry of the body,
   * and that entry is the coercion of the new text.
   */
  lemma EditChangesOneEntry(f: FormData, name: string, value: string,
                            parseFloat: string -> JsNumber, parseInt: string -> Option<int>)
    requires FieldNames <= f.Keys
    ensures var before := BuildPayload(f, parseFloat, parseInt);
            var after := BuildPayload(f[name := value], parseFloat, parseInt);
            && (name in FieldNames ==> after[name] == Coerce(name, value, parseFloat, parseInt))
            && (forall k :: k in FieldNames && k != name ==> after[k] == before[k])
  {
  }

  /** What the POST gave: the response data, or an error with the server's optional detail and the error's message. */
  datatype PostOutcome =
    | Responded(data: PredictionResult)
    | Failed(detail: Option<string>, message: string)

  /**
   * The alert text for a failed POST: the fixed prefix, then the server's detail when there
   * is a non-empty one, otherwise the error's own message.
   */
  function AlertText(detail: Option<string>, message: string): (text: string)
    ensures |text| >= |"Prediction failed: "|
    ensures text[..|"Prediction failed: "|] == "Prediction failed: "
    ensures text[|"Prediction failed: "|..] == (if detail.Some? && detail.value != "" then detail.value else message)
  {
    "Prediction failed: " + OrElse(detail, message)
  }

  /** The form component's state. */
  class LoanForm {
    var formData: FormData
    var loading: bool

    /** Every one of the eleven inputs has a value. */
    ghost predicate Valid()
      reads this
    {
      FieldNames <= formData.Keys
    }

    constructor ()
      ensures Valid()
      ensures formData == InitialFormData() && !loading
    {
      formData := InitialFormData();
      loading := false;
    }

    /** The submit button is disabled exactly while a request is in flight. */
    function SubmitDisabled(): (disabled: bool)
      reads this
      ensures disabled <==> loading
    {
      loading
    }

    /** An input's change event: the named field takes the new text, every other field keeps its own. */
    method HandleChange(name: string, value: string)
      requires Valid()
      modifies this
      ensures Valid()
      ensures formData == old(formData)[name := value]
      ensures forall k :: k in old(formData) && k != name ==> formData[k] == old(formData)[k]
      ensures loading == old(loading)
    {
      formData := formData[name := value];
    }

    /** The submit handler up to the POST: loading is set and the body is built from the form. */
    method StartSubmit(parseFloat: string -> JsNumber, parseInt: string -> Option<int>)
      returns (body: Payload)
      requires Valid()
      modifies this
      ensures Valid()
      ensures loading && SubmitDisabled()
      ensures formData == old(formData)
      ensures body == BuildPayload(formData, parseFloat, parseInt)
    {
      loading := true;
      body := BuildPayload(formData, parseFloat, parseInt);
    }

    /**
     * The submit handler after the POST: on a response, `onResult` is called once with its
     * data; on an error, nothing is delivered and an alert is raised; loading ends either way.
     */
    method CompleteSubmit(outcome: PostOutcome)
      returns (delivered: seq<PredictionResult>, alert: Option<string>)
      modifies this
      ensures !loading && !SubmitDisabled()
      ensures formData == old(formData)
      ensures outcome.Responded? ==> delivered == [outcome.data] && alert == None
      ensures outcome.Failed? ==> delivered == [] && alert == Some(AlertText(outcome.detail, outcome.message))
    {
      delivered := [];
      alert := None;
      match outcome {
        case Responded(data) =>
          delivered := delivered + [data];
        case Failed(detail, message) =>
          alert := Some(AlertText(detail, message));
      }
      loading := false;
    }

    /** The whole submit handler, with the POST as a parameter. */
    method HandleSubmit(parseFloat: string -> JsNumber, parseInt: string -> Option<int>, post: Payload -> PostOutcome)
      returns (body: Payload, delivered: seq<PredictionResult>, alert: Option<string>)
      requires Valid()
      modifies this
      ensures Valid()
      ensures !loading && formData == old(formData)
      ensures body == BuildPayload(old(formData), parseFloat, parseInt)
      ensures post(body).Responded? ==> delivered == [post(body).data] && alert == None
      ensures post(body).Failed? ==> delivered == [] && alert == Some(AlertText(post(body).detail, post(body).message))
    {
      body := StartSubmit(parseFloat, parseInt);
      delivered, alert := CompleteSubmit(post(body));
    }
  }
}
