/**
 * The scoring service's `/predict` and `/history` handlers: the single-row frame built
 * from the request, the per-column label encoding, the risk table, the record that is
 * stored and the response that is returned, and the history selection.
 *
 * The fitted model is a parameter (`model`), the fitted encoders are a parameter
 * (`encoders`), and the stored table is a parameter of the history query.
 */
module PredictRouter {
  import opened Common

  /** The eleven fields of the request body, as the handler reads them. */
  datatype LoanRequest = LoanRequest(
    annualIncome: real,
    debtToIncomeRatio: real,
    creditScore: int,
    loanAmount: real,
    interestRate: real,
    gender: string,
    maritalStatus: string,
    educationLevel: string,
    employmentStatus: string,
    loanPurpose: string,
    gradeSubgrade: string)

  /** One cell of the single-row frame handed to the model. */
  datatype Cell = RealCell(r: real) | IntCell(i: int) | TextCell(s: string)

  /** The single-row frame: column name to cell. */
  type Row = map<string, Cell>

  /** What a Python `raise` carries, as far as the handler reports it. */
  datatype Failure = KeyError(key: string) | ModelError(message: string)

  /** A computation that either finishes with a value or raises. */
  datatype Outcome<+T> = Done(value: T) | Raised(failure: Failure)

  /** `str(e)` for the exceptions above: a `KeyError` prints its key in single quotes. */
  function Detail(f: Failure): (text: string)
    ensures f.ModelError? ==> text == f.message
    ensures f.KeyError? ==> |text| == |f.key| + 2 && text[0] == '\'' == text[|text| - 1] && text[1..|text| - 1] == f.key
  {
    match f
    case KeyError(k) => "'" + k + "'"
    case ModelError(m) => m
  }

  /** The column lists the training script stores with the model. */
  const NumericFeatures: seq<string> :=
    ["annual_income", "debt_to_income_ratio", "credit_score", "loan_amount", "interest_rate"]
  const CategoricalFeatures: seq<string> :=
    ["gender", "marital_status", "education_level", "employment_status", "loan_purpose", "grade_subgrade"]

  /** The frame `pd.DataFrame([input_dict])`, before encoding. */
  function InputRow(req: LoanRequest): (row: Row)
    ensures row.Keys == (set c | c in NumericFeatures) + (set c | c in CategoricalFeatures)
    ensures forall c :: c in NumericFeatures ==> row[c].RealCell? || row[c].IntCell?
    ensures forall c :: c in CategoricalFeatures ==> row[c].TextCell?
  {
    map[
      "annual_income" := RealCell(req.annualIncome),
      "debt_to_income_ratio" := RealCell(req.debtToIncomeRatio),
      "credit_score" := IntCell(req.creditScore),
      "loan_amount" := RealCell(req.loanAmount),
      "interest_rate" := RealCell(req.interestRate),
      "gender" := TextCell(req.gender),
      "marital_status" := TextCell(req.maritalStatus),
      "education_level" := TextCell(req.educationLevel),
      "employment_status" := TextCell(req.employmentStatus),
      "loan_purpose" := TextCell(req.loanPurpose),
      "grade_subgrade" := TextCell(req.gradeSubgrade)
    ]
  }

  // ---------------------------------------------------------------------------
  // Categorical encoding
  // ---------------------------------------------------------------------------

  /** For each categorical column, the `classes_` list of its fitted label encoder. */
  type Encoders = map<string, seq<string>>

  /** `le.transform([v])[0]`: the position of `v` in the class list. */
  function IndexOf(classes: seq<string>, v: string): (i: nat)
    requires v in classes
    ensures i < |classes| && classes[i] == v
    ensures v !in classes[..i]
  {
    if classes[0] == v then 0 else 1 + IndexOf(classes[1..], v)
  }

  /**
   * The code stored for one categorical cell: its index in the class list when the cell
   * holds a known class, otherwise 0. A cell that is not text is never among the classes.
   */
  function EncodeCell(classes: seq<string>, c: Cell): (code: int)
    ensures c.TextCell? && c.s in classes ==> 0 <= code < |classes| && classes[code] == c.s
    ensures !(c.TextCell? && c.s in classes) ==> code == 0
  {
    if c.TextCell? && c.s in classes then IndexOf(classes, c.s) else 0
  }

  /**
   * The encoding loop, column by column, left to right: a column with no encoder, or one
   * missing from the frame, raises `KeyError`; otherwise the column is overwritten by its code.
   */
  function EncodeColumns(row: Row, features: seq<string>, encoders: Encoders): (r: Outcome<Row>)
    ensures r.Raised? ==> r.failure.KeyError? && r.failure.key in features
    decreases |features|
  {
    if features == [] then Done(row)
    else
      var col := features[0];
      if col !in encoders then Raised(KeyError(col))
      else if col !in row then Raised(KeyError(col))
      else EncodeColumns(row[col := IntCell(EncodeCell(encoders[col], row[col]))], features[1..], encoders)
  }

  /** The loop over `categorical_features` that rewrites the frame's columns in place. */
  method EncodeCategoricals(inputDf: Row, features: seq<string>, encoders: Encoders)
    returns (out: Outcome<Row>)
    ensures out == EncodeColumns(inputDf, features, encoders)
  {
    var df := inputDf;
    var i := 0;
    while i < |features|
      invariant 0 <= i <= |features|
      invariant EncodeColumns(df, features[i..], encoders) == EncodeColumns(inputDf, features, encoders)
    {
      var col := features[i];
      assert features[i..][1..] == features[i + 1..];
      if col !in encoders {
        return Raised(KeyError(col));
      }
      var le := encoders[col];
      if col !in df {
        return Raised(KeyError(col));
      }
      var val := df[col];
      if val.TextCell? && val.s in le {
        df := df[col := IntCell(IndexOf(le, val.s))];
      } else {
        df := df[col := IntCell(0)];
      }
      i := i + 1;
    }
    return Done(df);
  }

  /** Two known values get the same code only if they are the same value. */
  lemma KnownValuesDoNotCollide(classes: seq<string>, v1: string, v2: string)
    requires v1 in classes && v2 in classes
    ensures EncodeCell(classes, TextCell(v1)) == EncodeCell(classes, TextCell(v2)) <==> v1 == v2
  {
  }

  /** An unseen value gets the code of the first class. */
  lemma UnknownCollidesWithFirstClass(classes: seq<string>, v: string)
    requires |classes| > 0 && v !in classes
    ensures EncodeCell(classes, TextCell(v)) == EncodeCell(classes, TextCell(classes[0])) == 0
  {
  }

  /** Encoding succeeds exactly when every listed column has an encoder and is in the frame. */
  lemma {:induction false} EncodeSucceedsIff(row: Row, features: seq<string>, encoders: Encoders)
    ensures EncodeColumns(row, features, encoders).Done? <==>
            forall i :: 0 <= i < |features| ==> features[i] in encoders && features[i] in row
    decreases |features|
  {
    if features != [] {
      var col := features[0];
      if col in encoders && col in row {
        var row' := row[col := IntCell(EncodeCell(encoders[col], row[col]))];
        EncodeSucceedsIff(row', features[1..], encoders);
        assert row'.Keys == row.Keys;
        assert forall i :: 1 <= i < |features| ==> features[i] == features[1..][i - 1];
      }
    }
  }

  /** Encoding keeps the frame's columns and leaves every column it does not list untouched. */
  lemma {:induction false} EncodeKeepsOtherColumns(row: Row, features: seq<string>, encoders: Encoders)
    requires EncodeColumns(row, features, encoders).Done?
    ensures EncodeColumns(row, features, encoders).value.Keys == row.Keys
    ensures forall k :: k in row && k !in features ==> EncodeColumns(row, features, encoders).value[k] == row[k]
    decreases |features|
  {
    if features != [] {
      var col := features[0];
      var row' := row[col := IntCell(EncodeCell(encoders[col], row[col]))];
      EncodeKeepsOtherColumns(row', features[1..], encoders);
    }
  }

  /** Column names listed at most once, as in the training script's list. */
  predicate Distinct(features: seq<string>)
  {
    forall i, j :: 0 <= i < j < |features| ==> features[i] != features[j]
  }

  /** With distinct column names, each listed column ends up holding the code of its original cell. */
  lemma {:induction false} EncodeSetsListedColumns(row: Row, features: seq<string>, encoders: Encoders)
    requires Distinct(features)
    requires EncodeColumns(row, features, encoders).Done?
    ensures forall k :: k in features ==>
              k in encoders && k in row && k in EncodeColumns(row, features, encoders).value &&
              EncodeColumns(row, features, encoders).value[k] == IntCell(EncodeCell(encoders[k], row[k]))
    decreases |features|
  {
    if features != [] {
      var col := features[0];
      var rest := features[1..];
      var row' := row[col := IntCell(EncodeCell(encoders[col], row[col]))];
      assert Distinct(rest) by {
        forall i, j | 0 <= i < j < |rest| ensures rest[i] != rest[j] {
          assert rest[i] == features[i + 1] && rest[j] == features[j + 1];
        }
      }
      assert col !in rest by {
        forall i | 0 <= i < |rest| ensures rest[i] != col {
          assert rest[i] == features[i + 1];
        }
      }
      EncodeSetsListedColumns(row', rest, encoders);
      EncodeKeepsOtherColumns(row', rest, encoders);
      forall k | k in features
        ensures k in encoders && k in row && k in EncodeColumns(row, features, encoders).value &&
                EncodeColumns(row, features, encoders).value[k] == IntCell(EncodeCell(encoders[k], row[k]))
      {
        if k != col {
          assert k in rest;
        }
      }
    }
  }

  /** The training script's two column lists share no name and list no name twice. */
  lemma TrainingFeatureListsAreDisjoint()
    ensures Distinct(CategoricalFeatures)
    ensures forall c :: c in NumericFeatures ==> c !in CategoricalFeatures
  {
  }

  /**
   * With the training script's column lists and an encoder for each categorical column,
   * encoding succeeds, the five numeric fields reach the model exactly as they arrived and
   * each categorical field becomes the code of the request's value.
   */
  lemma NumericFieldsReachModelUnchanged(req: LoanRequest, encoders: Encoders)
    requires forall c :: c in CategoricalFeatures ==> c in encoders
    ensures EncodeColumns(InputRow(req), CategoricalFeatures, encoders).Done?
    ensures forall c :: c in NumericFeatures ==>
              c in EncodeColumns(InputRow(req), CategoricalFeatures, encoders).value &&
              EncodeColumns(InputRow(req), CategoricalFeatures, encoders).value[c] == InputRow(req)[c]
    ensures forall c :: c in CategoricalFeatures ==>
              c in EncodeColumns(InputRow(req), CategoricalFeatures, encoders).value &&
              EncodeColumns(InputRow(req), CategoricalFeatures, encoders).value[c] ==
              IntCell(EncodeCell(encoders[c], InputRow(req)[c]))
  {
    var row := InputRow(req);
    TrainingFeatureListsAreDisjoint();
    EncodeSucceedsIff(row, CategoricalFeatures, encoders);
    EncodeKeepsOtherColumns(row, CategoricalFeatures, encoders);
    EncodeSetsListedColumns(row, CategoricalFeatures, encoders);
  }

  /** Which numeric request field fills which column of the frame. */
  lemma InputRowHoldsNumbers(req: LoanRequest)
    ensures var row := InputRow(req);
            && row["annual_income"] == RealCell(req.annualIncome)
            && row["debt_to_income_ratio"] == RealCell(req.debtToIncomeRatio)
            && row["credit_score"] == IntCell(req.creditScore)
            && row["loan_amount"] == RealCell(req.loanAmount)
            && row["interest_rate"] == RealCell(req.interestRate)
  {
  }

  /** Which categorical request field fills which column of the frame. */
  lemma InputRowHoldsText(req: LoanRequest)
    ensures var row := InputRow(req);
            && row["gender"] == TextCell(req.gender)
            && row["marital_status"] == TextCell(req.maritalStatus)
            && row["education_level"] == TextCell(req.educationLevel)
            && row["employment_status"] == TextCell(req.employmentStatus)
            && row["loan_purpose"] == TextCell(req.loanPurpose)
            && row["grade_subgrade"] == TextCell(req.gradeSubgrade)
  {
  }

  /** The numeric request fields reach the model unchanged, each under its own column name. */
  lemma NumericRequestFieldsReachModel(req: LoanRequest, encoders: Encoders)
    requires forall c :: c in CategoricalFeatures ==> c in encoders
    ensures EncodeColumns(InputRow(req), CategoricalFeatures, encoders).Done?
    ensures var out := EncodeColumns(InputRow(req), CategoricalFeatures, encoders).value;
            && "annual_income" in out && out["annual_income"] == RealCell(req.annualIncome)
            && "debt_to_income_ratio" in out && out["debt_to_income_ratio"] == RealCell(req.debtToIncomeRatio)
            && "credit_score" in out && out["credit_score"] == IntCell(req.creditScore)
            && "loan_amount" in out && out["loan_amount"] == RealCell(req.loanAmount)
            && "interest_rate" in out && out["interest_rate"] == RealCell(req.interestRate)
  {
    NumericFieldsReachModelUnchanged(req, encoders);
    InputRowHoldsNumbers(req);
    assert "annual_income" in NumericFeatures && "debt_to_income_ratio" in NumericFeatures;
    assert "credit_score" in NumericFeatures && "loan_amount" in NumericFeatures && "interest_rate" in NumericFeatures;
  }

  /** Each categorical request field reaches the model as the code of its value, under its own column name. */
  lemma CategoricalRequestFieldsReachModel(req: LoanRequest, encoders: Encoders)
    requires forall c :: c in CategoricalFeatures ==> c in encoders
    ensures EncodeColumns(InputRow(req), CategoricalFeatures, encoders).Done?
    ensures var out := EncodeColumns(InputRow(req), CategoricalFeatures, encoders).value;
            && "gender" in out && "gender" in encoders
            && out["gender"] == IntCell(EncodeCell(encoders["gender"], TextCell(req.gender)))
            && "marital_status" in out && "marital_status" in encoders
            && out["marital_status"] == IntCell(EncodeCell(encoders["marital_status"], TextCell(req.maritalStatus)))
            && "education_level" in out && "education_level" in encoders
            && out["education_level"] == IntCell(EncodeCell(encoders["education_level"], TextCell(req.educationLevel)))
            && "employment_status" in out && "employment_status" in encoders
            && out["employment_status"] == IntCell(EncodeCell(encoders["employment_status"], TextCell(req.employmentStatus)))
            && "loan_purpose" in out && "loan_purpose" in encoders
            && out["loan_purpose"] == IntCell(EncodeCell(encoders["loan_purpose"], TextCell(req.loanPurpose)))
            && "grade_subgrade" in out && "grade_subgrade" in encoders
            && out["grade_subgrade"] == IntCell(EncodeCell(encoders["grade_subgrade"], TextCell(req.gradeSubgrade)))
  {
    NumericFieldsReachModelUnchanged(req, encoders);
    InputRowHoldsText(req);
    assert "gender" in CategoricalFeatures && "marital_status" in CategoricalFeatures;
    assert "education_level" in CategoricalFeatures && "employment_status" in CategoricalFeatures;
    assert "loan_purpose" in CategoricalFeatures && "grade_subgrade" in CategoricalFeatures;
  }


  // ---------------------------------------------------------------------------
  // Risk table
  // ---------------------------------------------------------------------------

  /** The four rows of the risk table, safest first. */
  datatype RiskBand = VeryLowRisk | LowRisk | MediumRisk | HighRisk
  {
    /** The `risk_level` string of the response. */
    function RiskLevel(): string
    {
      match this
      case VeryLowRisk => "Very Low Risk"
      case LowRisk => "Low Risk"
      case MediumRisk => "Medium Risk"
      case HighRisk => "High Risk"
    }

    /** The `confidence` string of the response. */
    function Confidence(): string
    {
      match this
      case VeryLowRisk => "Excellent"
      case LowRisk => "Good"
      case MediumRisk => "Fair"
      case HighRisk => "Poor"
    }

    /** Position in the table: 0 is the safest band, 3 the riskiest. */
    function Severity(): nat
    {
      match this
      case VeryLowRisk => 0
      case LowRisk => 1
      case MediumRisk => 2
      case HighRisk => 3
    }
  }

  /**
   * The top-down threshold chain on the payback probability; each band includes its lower
   * cutoff. Every probability, even one outside [0, 1], falls in exactly one band.
   */
  function AssessRisk(proba: real): (band: RiskBand)
    ensures band == VeryLowRisk <==> proba >= 0.85
    ensures band == LowRisk <==> 0.65 <= proba < 0.85
    ensures band == MediumRisk <==> 0.5 <= proba < 0.65
    ensures band == HighRisk <==> proba < 0.5
  {
    if proba >= 0.85 then VeryLowRisk
    else if proba >= 0.65 then LowRisk
    else if proba >= 0.5 then MediumRisk
    else HighRisk
  }

  /** A higher probability never lands in a riskier band. */
  lemma RiskMonotonic(p1: real, p2: real)
    requires p1 >= p2
    ensures AssessRisk(p1).Severity() <= AssessRisk(p2).Severity()
  {
  }

  /**
   * The `(risk_level, confidence)` pairs are one-to-one: each label determines the band,
   * so the confidence is a function of the risk level and back.
   */
  lemma RiskLabelsOneToOne(b1: RiskBand, b2: RiskBand)
    ensures b1.RiskLevel() == b2.RiskLevel() <==> b1 == b2
    ensures b1.Confidence() == b2.Confidence() <==> b1 == b2
  {
  }

  // ---------------------------------------------------------------------------
  // The /predict handler
  // ---------------------------------------------------------------------------

  /** What `predict_proba(...)[0][1]` and `predict(...)[0]` give for the encoded frame. */
  datatype Score = Score(proba: real, prediction: bool)

  /** The fields of the `LoanApplication` row the handler adds to the session. */
  datatype ApplicationRow = ApplicationRow(
    userId: int,
    request: LoanRequest,
    loanPaidBackProbability: real,
    isDefaultPredicted: bool)

  /** The handler's result: the stored row and the response body, or an HTTP error. */
  datatype PredictResponse =
    | Saved(record: ApplicationRow, body: PredictionResult)
    | HttpError(statusCode: int, detail: string)

  /** The response body for a score: the model's values and the risk table's labels. */
  function ResponseBody(s: Score): (body: PredictionResult)
    ensures body.loanPaidBackProbability == s.proba
    ensures body.loanWillBePaidBack == s.prediction
    ensures body.riskLevel == AssessRisk(s.proba).RiskLevel() && body.confidence == AssessRisk(s.proba).Confidence()
  {
    var band := AssessRisk(s.proba);
    PredictionResult(s.proba, s.prediction, band.RiskLevel(), band.Confidence())
  }

  /**
   * `POST /predict`: build the frame, encode it, score it, classify the probability, and
   * return the stored row with the response; any exception on the way becomes a 500 whose
   * detail is the exception's text.
   */
  method Predict(request: LoanRequest, userId: int, features: seq<string>, encoders: Encoders,
                 model: Row -> Outcome<Score>)
    returns (resp: PredictResponse)
    ensures resp.HttpError? ==> resp.statusCode == 500
    ensures resp.Saved? ==> resp.record.isDefaultPredicted == !resp.body.loanWillBePaidBack
    ensures resp.Saved? ==>
              && resp.record.userId == userId
              && resp.record.request == request
              && resp.record.loanPaidBackProbability == resp.body.loanPaidBackProbability
              && resp.body.riskLevel == AssessRisk(resp.body.loanPaidBackProbability).RiskLevel()
              && resp.body.confidence == AssessRisk(resp.body.loanPaidBackProbability).Confidence()
    ensures match EncodeColumns(InputRow(request), features, encoders)
            case Raised(f) => resp == HttpError(500, Detail(f))
            case Done(df) =>
              match model(df)
              case Raised(f) => resp == HttpError(500, Detail(f))
              case Done(s) => resp == Saved(ApplicationRow(userId, request, s.proba, !s.prediction), ResponseBody(s))
  {
    var encoded := EncodeCategoricals(InputRow(request), features, encoders);
    if encoded.Raised? {
      return HttpError(500, Detail(encoded.failure));
    }
    var scored := model(encoded.value);
    if scored.Raised? {
      return HttpError(500, Detail(scored.failure));
    }
    var proba := scored.value.proba;
    var prediction := scored.value.prediction;
    var band := AssessRisk(proba);
    var dbApp := ApplicationRow(userId, request, proba, !prediction);
    resp := Saved(dbApp, PredictionResult(proba, prediction, band.RiskLevel(), band.Confidence()));
  }

  // ---------------------------------------------------------------------------
  // The /history handler
  // ---------------------------------------------------------------------------

  /** A stored row with the columns the database fills in: its id and creation time. */
  datatype StoredApplication = StoredApplication(id: int, createdAt: int, application: ApplicationRow)

  /** The `limit` query parameter's default. */
  const DefaultHistoryLimit: nat := 50

  /** The rows that belong to `userId`, in table order. */
  function OwnedBy(table: seq<StoredApplication>, userId: int): (r: seq<StoredApplication>)
    ensures forall a :: a in r <==> a in table && a.application.userId == userId
    ensures multiset(r) <= multiset(table)
    ensures forall a: StoredApplication :: a.application.userId == userId ==> multiset(r)[a] == multiset(table)[a]
  {
    if table == [] then []
    else
      assert table == [table[0]] + table[1..];
      if table[0].application.userId == userId then [table[0]] + OwnedBy(table[1..], userId)
    else OwnedBy(table[1..], userId)
  }

  /** No row comes after a newer one. */
  predicate NewestFirst(s: seq<StoredApplication>)
  {
    forall i, j :: 0 <= i < j < |s| ==> s[i].createdAt >= s[j].createdAt
  }

  /** Insert `x` into a newest-first sequence before the first row that is not newer than it. */
  function Insert(x: StoredApplication, s: seq<StoredApplication>): seq<StoredApplication>
  {
    if s == [] || x.createdAt >= s[0].createdAt then [x] + s
    else [s[0]] + Insert(x, s[1..])
  }

  /** `ORDER BY created_at DESC`, as an insertion sort. */
  function SortNewestFirst(s: seq<StoredApplication>): (r: seq<StoredApplication>)
    ensures NewestFirst(r)
    ensures multiset(r) == multiset(s)
  {
    if s == [] then []
    else
      var rest := SortNewestFirst(s[1..]);
      InsertSorted(s[0], rest);
      InsertMultiset(s[0], rest);
      assert s == [s[0]] + s[1..];
      Insert(s[0], rest)
  }

  lemma {:induction false} InsertElements(x: StoredApplication, s: seq<StoredApplication>)
    ensures forall a :: a in Insert(x, s) <==> a == x || a in s
  {
    if s != [] && x.createdAt < s[0].createdAt {
      InsertElements(x, s[1..]);
      assert s == [s[0]] + s[1..];
    }
  }

  lemma {:induction false} InsertMultiset(x: StoredApplication, s: seq<StoredApplication>)
    ensures multiset(Insert(x, s)) == multiset(s) + multiset{x}
  {
    if s != [] && x.createdAt < s[0].createdAt {
      InsertMultiset(x, s[1..]);
      assert s == [s[0]] + s[1..];
    }
  }

  lemma {:induction false} InsertSorted(x: StoredApplication, s: seq<StoredApplication>)
    requires NewestFirst(s)
    ensures NewestFirst(Insert(x, s))
  {
    if s != [] && x.createdAt < s[0].createdAt {
      var rest := s[1..];
      assert NewestFirst(rest) by {
        forall i, j | 0 <= i < j < |rest| ensures rest[i].createdAt >= rest[j].createdAt {
          assert rest[i] == s[i + 1] && rest[j] == s[j + 1];
        }
      }
      InsertSorted(x, rest);
      InsertElements(x, rest);
      var t := Insert(x, rest);
      forall k | 0 <= k < |t| ensures s[0].createdAt >= t[k].createdAt {
        assert t[k] in t;
        if t[k] != x {
          var m :| 0 <= m < |rest| && rest[m] == t[k];
          assert s[m + 1] == t[k];
        }
      }
      var r := [s[0]] + t;
      assert Insert(x, s) == r;
      forall i, j | 0 <= i < j < |r| ensures r[i].createdAt >= r[j].createdAt {
        if i > 0 {
          assert r[i] == t[i - 1] && r[j] == t[j - 1];
        } else {
          assert r[j] == t[j - 1];
        }
      }
    }
  }

  /**
   * `GET /history`: the caller's rows, newest first, at most `limit` of them.
   */
  function History(table: seq<StoredApplication>, userId: int, limit: nat): (r: seq<StoredApplication>)
    ensures |r| <= limit
    ensures NewestFirst(r)
    ensures multiset(r) <= multiset(OwnedBy(table, userId))
  {
    var sorted := SortNewestFirst(OwnedBy(table, userId));
    TakeFromNewestFirst(sorted, limit);
    Take(sorted, limit)
  }

  /** In a newest-first sequence, nothing after position `n` is newer than anything before it. */
  lemma PrefixIsNewest(s: seq<StoredApplication>, n: nat)
    requires NewestFirst(s) && n <= |s|
    ensures forall x, y :: x in s[n..] && y in s[..n] ==> x.createdAt <= y.createdAt
  {
  }

  /** Cutting a sequence at `n`: the dropped rows are the multiset difference. */
  lemma CutMultiset(s: seq<StoredApplication>, n: nat)
    requires n <= |s|
    ensures multiset(s[..n]) <= multiset(s)
    ensures multiset(s) - multiset(s[..n]) == multiset(s[n..])
  {
    assert s == s[..n] + s[n..];
  }

  /** At most `limit` rows of `s`, taken from the front. */
  function Take(s: seq<StoredApplication>, limit: nat): (r: seq<StoredApplication>)
    ensures r <= s
    ensures |r| == (if |s| <= limit then |s| else limit)
  {
    if |s| <= limit then s else s[..limit]
  }

  /** Keeping the first `limit` rows of a newest-first sequence keeps its newest rows. */
  lemma TakeFromNewestFirst(sorted: seq<StoredApplication>, limit: nat)
    requires NewestFirst(sorted)
    ensures NewestFirst(Take(sorted, limit))
    ensures |Take(sorted, limit)| == (if |sorted| <= limit then |sorted| else limit)
    ensures multiset(Take(sorted, limit)) <= multiset(sorted)
    ensures forall x, y ::
              (x in multiset(sorted) - multiset(Take(sorted, limit)) && y in Take(sorted, limit))
              ==> x.createdAt <= y.createdAt
  {
    var n := if |sorted| <= limit then |sorted| else limit;
    assert Take(sorted, limit) == sorted[..n];
    CutMultiset(sorted, n);
    PrefixIsNewest(sorted, n);
    forall x, y | x in multiset(sorted) - multiset(sorted[..n]) && y in sorted[..n]
      ensures x.createdAt <= y.createdAt
    {
      assert x in multiset(sorted[n..]);
    }
  }

  /** Sorting newest first and keeping `limit` rows keeps the newest `limit` rows of `s`. */
  lemma TakeNewest(s: seq<StoredApplication>, limit: nat)
    ensures NewestFirst(Take(SortNewestFirst(s), limit))
    ensures |Take(SortNewestFirst(s), limit)| == (if |s| <= limit then |s| else limit)
    ensures multiset(Take(SortNewestFirst(s), limit)) <= multiset(s)
    ensures forall x, y ::
              (x in multiset(s) - multiset(Take(SortNewestFirst(s), limit)) && y in Take(SortNewestFirst(s), limit))
              ==> x.createdAt <= y.createdAt
  {
    var sorted := SortNewestFirst(s);
    assert |sorted| == |s| by {
      assert |multiset(sorted)| == |multiset(s)|;
    }
    TakeFromNewestFirst(sorted, limit);
  }

  /**
   * The history holds only the caller's rows, newest first, as many as the limit allows
   * (all of them if there are fewer), and no row of the caller's that it leaves out is
   * newer than any row it keeps.
   */
  lemma HistorySelectsNewestOwnRows(table: seq<StoredApplication>, userId: int, limit: nat)
    ensures forall a :: a in History(table, userId, limit) ==> a in table && a.application.userId == userId
    ensures NewestFirst(History(table, userId, limit))
    ensures |History(table, userId, limit)| ==
            (if |OwnedBy(table, userId)| <= limit then |OwnedBy(table, userId)| else limit)
    ensures multiset(History(table, userId, limit)) <= multiset(OwnedBy(table, userId))
    ensures forall x, y ::
              (x in multiset(OwnedBy(table, userId)) - multiset(History(table, userId, limit)) &&
               y in History(table, userId, limit))
              ==> x.createdAt <= y.createdAt
  {
    var owned := OwnedBy(table, userId);
    TakeNewest(owned, limit);
    var h := History(table, userId, limit);
    assert h == Take(SortNewestFirst(owned), limit);
    forall a | a in h ensures a in table && a.application.userId == userId {
      assert a in multiset(h);
      assert a in multiset(owned);
    }
  }

  /** Without a `limit` parameter the history holds at most 50 rows, and all of the caller's rows when there are no more. */
  lemma DefaultHistoryHoldsAtMostFifty(table: seq<StoredApplication>, userId: int)
    ensures |History(table, userId, DefaultHistoryLimit)| <= 50
    ensures |OwnedBy(table, userId)| <= 50 ==>
              multiset(History(table, userId, DefaultHistoryLimit)) == multiset(OwnedBy(table, userId))
  {
    HistorySelectsNewestOwnRows(table, userId, DefaultHistoryLimit);
  }
}
