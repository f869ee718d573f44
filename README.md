# Loan default predictor: decision rules and form state

This project models the deterministic core of a loan-risk web application and proves
properties of it in Dafny.

- The scoring service's `/predict` handler. It builds a one-row frame from the eleven
  request fields and label-encodes the six categorical columns. An unknown value becomes
  0. It then scores the frame, maps the payback probability to one of four
  `(risk_level, confidence)` pairs, stores a row whose `is_default_predicted` is the
  negation of the returned `loan_will_be_paid_back`, and turns any exception into an
  HTTP 500 (`predict_router.dfy`).
- The `/history` handler: the caller's rows, newest first, at most `limit` (default 50).
- The result card: nothing for no prediction; otherwise a colour and icon from the
  0.8/0.5 cutoffs, a percentage `Math.round(prob * 100)`, and a headline chosen only by
  the server's boolean (`result_card.dfy`). `consistency.dfy` relates the card's colours to
  the server's risk bands.
- The loan form: eleven raw string fields, one field changed per event, the request
  body built at submit, `parseInt` for the credit score and `parseFloat` for the other
  four numbers, and a loading flag around the request. A response makes exactly one
  `onResult` call; a failure makes none and raises an alert (`loan_form.dfy`).
- The sign-in form: tab 0 logs in and any other tab signs up. Submit clears the error
  and sets loading. A rejection shows the server's `detail`, or "Authentication failed".
  Loading ends either way (`auth_form.dfy`).
- The shell: spinner while the session is loading, the sign-in form when signed out,
  otherwise the loan form and the result card for the `prediction` slot. Each new
  result replaces that slot (`app_shell.dfy`).

Probabilities are Dafny `real`s. The fitted model, the fitted encoders, the stored table,
`parseFloat`/`parseInt`, the POST and the login/signup calls are parameters. The
event handlers that `await` are split at the await: `StartSubmit` is the state up to the
call, and `CompleteSubmit` takes the call's outcome as an input. `HandleSubmit` composes
the two, with the external call as a function parameter.

The server's risk table cuts at 0.85/0.65/0.5, while the client colours the card by its own
0.8/0.5 cutoffs. The loan form's predict call passes no token itself, and the form runs no
validation of its own before submit: the only checks are the browser's, from the inputs'
`type="number"`, `required`, `min`, `max` and `step` attributes.

## Model

| member | source | states |
|---|---|---|
| `PredictRouter.Detail` | backend/app/routers/predict.py:103-104 | the 500's detail is a model error's own message, or, for a key without quotes or backslashes (every column name here), a `KeyError`'s key in single quotes |
| `PredictRouter.EncodeColumns` | backend/app/routers/predict.py:47-54 | the left-to-right column rewrite; when it raises, the error is a `KeyError` naming one of the listed columns |
| `PredictRouter.InputRow` | backend/app/routers/predict.py:30-44 | the frame has exactly the five numeric and six categorical columns, numbers under the numeric ones and text under the categorical ones; which request field lands in which column is stated by `InputRowHoldsNumbers` and `InputRowHoldsText` |
| `PredictRouter.IndexOf` | backend/app/routers/predict.py:52 | the code of a known class is a position holding that class, and its first occurrence |
| `PredictRouter.EncodeCell` | backend/app/routers/predict.py:49-54 | a known text value gets an index in range that holds that value; anything else, including a non-text cell, gets 0 |
| `PredictRouter.EncodeCategoricals` | backend/app/routers/predict.py:47-54 | the in-place loop over the categorical columns equals the left-to-right column rewrite, including the `KeyError` for a missing encoder or column |
| `PredictRouter.KnownValuesDoNotCollide` | backend/app/routers/predict.py:51-52 | two known values get the same code if and only if they are equal |
| `PredictRouter.UnknownCollidesWithFirstClass` | backend/app/routers/predict.py:53-54 | an unseen value gets code 0, the same code as the first class |
| `PredictRouter.EncodeSucceedsIff` | backend/app/routers/predict.py:47-49 | encoding succeeds if and only if every listed column has an encoder and is in the frame |
| `PredictRouter.EncodeKeepsOtherColumns` | backend/app/routers/predict.py:47-54 | encoding keeps the frame's column set and leaves every unlisted column unchanged |
| `PredictRouter.EncodeSetsListedColumns` | backend/app/routers/predict.py:47-54 | with distinct column names, each listed column ends holding the code of its original value |
| `PredictRouter.TrainingFeatureListsAreDisjoint` | backend/ml_model/train_model.py:28-31 | the stored categorical list has no repeats and shares no name with the numeric list |
| `PredictRouter.NumericFieldsReachModelUnchanged` | backend/app/routers/predict.py:30-54 | with an encoder per categorical column, encoding succeeds; each of the five numeric request fields reaches the model unchanged under its own column name, and each categorical request field becomes the code of its value under its own column name |
| `PredictRouter.InputRowHoldsNumbers` | backend/app/routers/predict.py:31-35 | each of the five numeric request fields fills the column of its own name, as that number |
| `PredictRouter.InputRowHoldsText` | backend/app/routers/predict.py:36-41 | each of the six categorical request fields fills the column of its own name, as that text |
| `PredictRouter.NumericRequestFieldsReachModel` | backend/app/routers/predict.py:30-54 | after encoding, `annual_income`, `debt_to_income_ratio`, `credit_score`, `loan_amount` and `interest_rate` hold exactly the request's own values |
| `PredictRouter.CategoricalRequestFieldsReachModel` | backend/app/routers/predict.py:30-54 | after encoding, each of the six categorical columns holds the code its own encoder gives the request's value for that field |
| `PredictRouter.AssessRisk` | backend/app/routers/predict.py:61-72 | every probability falls in exactly one band, each band including its lower cutoff: >= 0.85, [0.65, 0.85), [0.5, 0.65), < 0.5 |
| `PredictRouter.RiskMonotonic` | backend/app/routers/predict.py:61-72 | a higher probability never gets a riskier band |
| `PredictRouter.RiskLabelsOneToOne` | backend/app/routers/predict.py:61-72 | the risk label and the confidence label each determine the band, so they determine each other |
| `PredictRouter.ResponseBody` | backend/app/routers/predict.py:96-101 | the response carries the model's probability and boolean with the risk table's labels for that probability |
| `PredictRouter.Predict` | backend/app/routers/predict.py:28-104 | an encoding or scoring exception gives a 500 with the exception's text. Otherwise: the stored row has the caller's id, the request and the probability; `is_default_predicted` is the negation of `loan_will_be_paid_back`; the labels match the table |
| `PredictRouter.OwnedBy` | backend/app/routers/predict.py:113-114 | a row is kept if and only if it is in the table and belongs to the user, each of the user's rows as often as it occurs in the table, and nothing beyond the table |
| `PredictRouter.SortNewestFirst` | backend/app/routers/predict.py:115-116 | the ordering is newest first and is a permutation of its input |
| `PredictRouter.Take` | backend/app/routers/predict.py:117 | the result is a prefix of its input, of length min(limit, n) |
| `PredictRouter.History` | backend/app/routers/predict.py:106-119 | at most `limit` rows, newest first, drawn from the caller's rows |
| `PredictRouter.DefaultHistoryHoldsAtMostFifty` | backend/app/routers/predict.py:110 | with the default limit the history holds at most 50 rows, and exactly the caller's rows when there are at most 50 |
| `PredictRouter.TakeNewest` | backend/app/routers/predict.py:115-117 | sorting then limiting gives min(limit, n) rows, newest first, drawn from the input, none older than a row left out |
| `PredictRouter.HistorySelectsNewestOwnRows` | backend/app/routers/predict.py:106-119 | history returns only the caller's rows, newest first, min(limit, owned) of them, and no omitted own row is newer than a returned one |
| `ResultCard.ColorFor` | frontend/src/components/ResultCard.tsx:20-32 | exactly one colour: success if and only if prob >= 0.8, warning if and only if 0.5 <= prob < 0.8, error if and only if prob < 0.5 |
| `ResultCard.IconFor` | frontend/src/components/ResultCard.tsx:23-32 | the check icon exactly for success, the warning icon exactly for warning, the error icon exactly for error |
| `ResultCard.Headline` | frontend/src/components/ResultCard.tsx:39 | the headline starts with a check mark exactly when the loan will be paid back, and with a cross otherwise |
| `ResultCard.Pct` | frontend/src/components/ResultCard.tsx:18 | the percentage is the integer within one half of prob * 100, halves rounded up |
| `ResultCard.PctInRange` | frontend/src/components/ResultCard.tsx:18 | a probability in [0, 1] gives a percentage in 0..100 |
| `ResultCard.Render` | frontend/src/components/ResultCard.tsx:15-69 | no data renders nothing. Otherwise the card shows the probability's colour, that colour's icon, the headline for the boolean, the percentage as text and progress value, and the server's two labels |
| `ResultCard.ColorMonotonic` | frontend/src/components/ResultCard.tsx:23-32 | a higher probability never gets a worse colour |
| `ResultCard.IconOneToOne` | frontend/src/components/ResultCard.tsx:23-32 | the icon and the colour determine each other |
| `ResultCard.HeadlineDeterminesBoolean` | frontend/src/components/ResultCard.tsx:39 | the two headlines differ, so the headline is a function of the server's boolean alone |
| `ResultCard.HeadlineAndColorMayDisagree` | frontend/src/components/ResultCard.tsx:36-39 | success colour with the High Default Risk headline, and error colour with the Paid Back headline, both occur |
| `Consistency.ErrorColorIffHighRisk` | frontend/src/components/ResultCard.tsx:26-31 | for one probability, the card is in the error colour if and only if the server's band is High Risk (shared 0.5 cutoff) |
| `Consistency.ColorForEachBand` | backend/app/routers/predict.py:61-72 | Very Low Risk always shows success; Medium Risk always shows warning; Low Risk shows success if and only if p >= 0.8 |
| `Consistency.LowRiskSpansTwoColors` | frontend/src/components/ResultCard.tsx:23-28 | Low Risk occurs with both the success and the warning colour |
| `Consistency.CardForServerResponse` | frontend/src/components/ResultCard.tsx:58-63 | for a server response, the risk chip is the server's label, the colour is the client's, and error colour coincides with the High Risk chip |
| `LoanFormComponent.InitialFormData` | frontend/src/components/LoanForm.tsx:14-26 | the initial form has exactly the eleven fields, the five numeric ones empty and the six selections on Male, Single, High School, Employed, Debt consolidation and C1 |
| `LoanFormComponent.LoanForm.SubmitDisabled` | frontend/src/components/LoanForm.tsx:175-176 | the button is disabled exactly while a request is in flight |
| `LoanFormComponent.IntegerValue` | frontend/src/components/LoanForm.tsx:40 | `parseInt`'s integer as a number, NaN exactly when nothing parses, so always integral or NaN |
| `LoanFormComponent.Coerce` | frontend/src/components/LoanForm.tsx:37-49 | only the six text fields stay text, copied as they are; `credit_score` goes through `parseInt`, the four decimal fields through `parseFloat` |
| `LoanFormComponent.InitialSelectionsAreOffered` | frontend/src/components/LoanForm.tsx:19-25 | each categorical default is one of its select's menu items, and the grade default is a letter A-F followed by a digit 1-5 |
| `LoanFormComponent.LoanForm.constructor` | frontend/src/components/LoanForm.tsx:13-26 | a mounted form holds the initial data and is not loading |
| `LoanFormComponent.LoanForm.HandleChange` | frontend/src/components/LoanForm.tsx:28-30 | only the named field takes the new text; every other field and the loading flag keep their values |
| `LoanFormComponent.BuildPayload` | frontend/src/components/LoanForm.tsx:37-49 | the body has exactly the eleven fields: the six text fields copied as they are, four through `parseFloat`, and `credit_score` as `parseInt` of its text (integral or NaN) |
| `LoanFormComponent.PayloadIgnoresOtherKeys` | frontend/src/components/LoanForm.tsx:37-49 | keys other than the eleven never affect the body |
| `LoanFormComponent.EditChangesOneEntry` | frontend/src/components/LoanForm.tsx:28-49 | editing a field changes only that field's body entry, to the coercion of the new text |
| `LoanFormComponent.AlertText` | frontend/src/components/LoanForm.tsx:53 | the alert is "Prediction failed: " followed by the server's detail when it is non-empty, otherwise the error's message |
| `LoanFormComponent.LoanForm.StartSubmit` | frontend/src/components/LoanForm.tsx:32-49 | loading is set, so the button at line 176 is disabled; the form is unchanged; the body is built from the form |
| `LoanFormComponent.LoanForm.CompleteSubmit` | frontend/src/components/LoanForm.tsx:51-57 | loading ends. A response gives exactly one `onResult` call with its data and no alert. A failure gives no call and an alert with the detail, or else the message |
| `LoanFormComponent.LoanForm.HandleSubmit` | frontend/src/components/LoanForm.tsx:32-58 | a whole submit: the body from the form, exactly one delivery on a response; on a failure none, and the alert text for the failure; loading false afterwards |
| `AuthFormComponent.Dispatch` | frontend/src/components/AuthForm.tsx:37-41 | login if and only if the tab is 0, otherwise signup with the email; username and password passed through |
| `AuthFormComponent.RejectionMessage` | frontend/src/components/AuthForm.tsx:43 | a non-empty detail is shown as it is; an absent or empty one yields "Authentication failed"; never empty |
| `AuthFormComponent.LoginTabSendsNoEmail` | frontend/src/components/AuthForm.tsx:37-38 | on the login tab the email has no influence on the call |
| `AuthFormComponent.AuthForm.constructor` | frontend/src/components/AuthForm.tsx:23-28 | tab 0, empty inputs, no error, not loading |
| `AuthFormComponent.AuthForm.EmailFieldShown` | frontend/src/components/AuthForm.tsx:175 | the email field shows exactly on tab 1, and then a submit signs up with that email |
| `AuthFormComponent.AuthForm.SubmitDisabled` | frontend/src/components/AuthForm.tsx:218 | the button is disabled exactly while the authentication call is in flight |
| `AuthFormComponent.AuthForm.ChangeTab` | frontend/src/components/AuthForm.tsx:163 | only the tab changes |
| `AuthFormComponent.AuthForm.SetEmail` | frontend/src/components/AuthForm.tsx:183 | only the email changes |
| `AuthFormComponent.AuthForm.SetUsername` | frontend/src/components/AuthForm.tsx:193 | only the username changes |
| `AuthFormComponent.AuthForm.SetPassword` | frontend/src/components/AuthForm.tsx:203 | only the password changes |
| `AuthFormComponent.AuthForm.StartSubmit` | frontend/src/components/AuthForm.tsx:31-41 | the error is cleared and loading set before the call, so the button at line 218 is disabled. The call follows the tab, and the sign-up tab (where line 175 shows the email field) always signs up |
| `AuthFormComponent.AuthForm.CompleteSubmit` | frontend/src/components/AuthForm.tsx:42-46 | loading ends whatever the outcome; only a rejection sets the error |
| `AuthFormComponent.AuthForm.HandleSubmit` | frontend/src/components/AuthForm.tsx:31-47 | a whole submit: on success the error is empty, on rejection it is the rejection message; loading false afterwards; inputs unchanged |
| `AppShell.SelectView` | frontend/src/App.tsx:35-76 | spinner if and only if loading; sign-in form if and only if not loading and signed out; main screen with the card for `prediction` if and only if not loading and signed in |
| `AppShell.LoadingHidesEverything` | frontend/src/App.tsx:35-41 | while loading, the screen is the spinner whatever the authentication and prediction |
| `AppShell.CardShownIffPrediction` | frontend/src/App.tsx:72-73 | the main screen shows a card if and only if there is a prediction |
| `AppShell.LatestResultWins` | frontend/src/App.tsx:72 | after any non-empty run of `onResult` calls, the slot holds only the last result |
| `AppShell.AuthWrapper.constructor` | frontend/src/App.tsx:28-33 | `prediction` starts empty |
| `AppShell.AuthWrapper.SetPrediction` | frontend/src/App.tsx:72 | the new result replaces the slot |
| `AppShell.AuthWrapper.View` | frontend/src/App.tsx:35-76 | the spinner exactly while loading; the sign-in form exactly when signed out and not loading; the main screen exactly when signed in and not loading, showing the result card rendered from the slot (nothing when the slot is empty; otherwise its colour, icon, headline, percentage and chips) |

## Left out

- The fitted model (`predict_proba`, `predict`) and all of the training script: the model is a function parameter that returns a score or raises.
- Loading the model package and the `/model-info` endpoint: artifact I/O and string formatting only.
- Database persistence (`add`, `commit`, `refresh`), the row id and `created_at`: the stored row is the handler's result, and the history query takes ids and timestamps as given.
- The SQL engine behind the history query: modelled as filter, sort and truncate over a sequence.
- `PredictRouter.History`: a negative `limit` is excluded by the type `nat`, because its meaning is database-specific. Rows with equal `created_at` come in one fixed order; the database leaves that order open, and every proved property holds for any tie order.
- `PredictRouter.Predict`: the two model calls are one outcome parameter. The request schema is not part of this model; its field types come from the handler and the form.
- Request authentication on the server (`get_current_active_user`): the caller's id is an input.
- The session context (`useAuth`): its login, signup, logout, token storage and `loading`/`isAuthenticated` flags are inputs or function parameters.
- The browser's own checks on the loan form inputs' `type="number"`, `required`, `min`, `max` and `step` attributes and on the sign-in form inputs' `required` and `type="email"` attributes before it fires the submit event, and how NaN is serialised to JSON: outside the component code.
- `PredictRouter.Detail`: Python's `str` of a `KeyError` is the `repr` of the key, which switches to double quotes or escapes backslashes for keys containing quotes or backslashes; the model always wraps the key in single quotes, which agrees for the column names that can be missing here.
- A non-string `detail`: both forms take the server's `detail` as an optional string. A FastAPI 422 response carries a list of objects there, and `detail || ...` followed by string concatenation would then show the list's JavaScript string form (such as `[object Object]`); that case is not modelled.
- The exact algorithms of `parseFloat` and `parseInt`: they are parameters. NaN is modelled as its own value.
- Floating point: probabilities and the percentage use exact reals, so IEEE rounding of `prob * 100` is not modelled.
- Overlapping submissions, unmounting while a request is pending, and other async interleavings: the code has no generation token or cancellation.
- The history list component, the falling-money background, the random floating circles and all styling: presentation only.
- `console.error` and the exact rendering of the alert: the alert is a returned value.
