# Bad debt prediction dashboard: verified model of its decision logic

The dashboard is a web page. A user fills in credit-bureau attributes, a
pre-trained classifier estimates the probability that the applicant is
"Bad", and the page shows that probability, a decision and a credit-score
risk band. Most of the program is presentation. This project models the
part that is logic:

- `BusinessRules` (`business_rules.dfy`) holds the two display rules of
  `main_3.py`. One is the derived long-term delinquency count. The other
  is the four-way banding of the CR22 credit score.
- `PredictionHelper` (`prediction_helper.dfy`) models `prepare_input` in
  `prediction_helper.py`. It adds every trained feature the record lacks,
  with value 0, keeps exactly the trained columns in the trained order,
  and replaces the columns to scale by the scaler's output. It also
  models `predict_risk`: read the classifier's probability of class 1
  ("Bad") and call the applicant "Bad" when that probability is at least
  0.3.
- `Dashboard` (`dashboard.dfy`) models the page's glue. It builds the
  ten-field record from the input widgets, including the derived count.
  It then runs the prediction and pairs it with the score's band.

The loaded model bundle is the `Artifacts` value. It holds the trained
feature list, the columns to scale, the fitted scaler's transform and the
classifier's probability estimate. The scaler and the classifier are
opaque function parameters; the model states only which columns they see
and where their output goes. `prepare_input`'s zero-fill loop is the
method `PredictionHelper.AddMissingColumns`, with a loop invariant, called
by `PredictionHelper.PrepareInput`. The methods are proved equal to the
specification functions `ZeroFilled` and `Prepare`, and the alignment
properties are proved about those functions.

The error paths of the Python code are modelled as `Result` values:
- A column to scale that is not a trained feature is `MissingColumn`. In
  pandas this is the `KeyError` of `df[cols_to_scale]`.
- A scaler output that is not one value per scaled column is
  `ScalerShapeMismatch`.
- A probability row with no entry at index `BAD_CLASS` is `NoBadClass`.
  In Python this is an `IndexError`.

`prepare_input` one-hot encodes the record with
`pd.get_dummies(df, drop_first=True)` (prediction_helper.py:22). But
`main_3.py` sends only integer fields (main_3.py:121-132), so this step
leaves the record unchanged, and the model passes the record straight to
the zero-fill step.

## Model

| member | source | states |
|---|---|---|
| `BusinessRules.LongTermDelinquencyCount` | main_3.py:75-76 | the count is the 24-month count when at most one 12-month late payment, else adds every 12-month payment beyond the first; never below the 24-month count |
| `BusinessRules.DelinquencyNonNegative` | main_3.py:76 | for non-negative inputs the count is non-negative and at least the 24-month count |
| `BusinessRules.DelinquencyMonotone` | main_3.py:76 | the count is non-decreasing in each argument |
| `BusinessRules.DelinquencyExamples` | main_3.py:75-76 | (0,0) gives 0, (1,0) gives 0, (3,2) gives 4, (0,5) gives 5 |
| `BusinessRules.Cr22RiskBand` | main_3.py:78-86 | total: always one of the four labels; each label holds exactly on its closed score interval (at most 500, 501-607, 608-715, at least 716) |
| `BusinessRules.BandBoundaries` | main_3.py:79-85 | 500 is Very High Risk, 501 and 607 High Risk, 608 and 715 Medium Risk, 716 Low Risk |
| `BusinessRules.BandMonotone` | main_3.py:78-86 | a higher score never yields a riskier band |
| `PredictionHelper.ZeroFilled` | prediction_helper.py:25-27 | after the fill, the keys are the record's keys plus every feature; a key of the record keeps its value; every added key has value 0 |
| `PredictionHelper.Select` | prediction_helper.py:30 | the frame's columns are exactly the requested names in order, each with the record's value |
| `PredictionHelper.Align` | prediction_helper.py:25-30 | the aligned columns are exactly the features in order; a feature in the record keeps its value, a missing one is 0 |
| `PredictionHelper.AlignDropsUnknownKeys` | prediction_helper.py:30 | a record key that is not a feature is not a column of the aligned frame |
| `PredictionHelper.AlignIdempotent` | prediction_helper.py:25-30 | aligning the record of an aligned frame gives back that same frame |
| `PredictionHelper.SubFrame` | prediction_helper.py:33 | the sub-frame of the columns to scale exists iff every one is a column of the frame; it has those columns in order with the frame's cells; otherwise the error names a missing column |
| `PredictionHelper.Scale` | prediction_helper.py:33 | fails iff a column to scale is missing or the scaler's row has the wrong width; otherwise the column order is kept, unscaled columns keep their value, and each scaled column gets the scaler's value at its own position |
| `PredictionHelper.Prepare` | prediction_helper.py:17-35 | fails iff some column to scale is not a trained feature or the scaler's row has the wrong width; otherwise the frame's columns are exactly the trained features in order, an unscaled feature holds the record's value (0 when the record lacks it), and a scaled feature holds the scaler's value at its own position |
| `PredictionHelper.AddMissingColumns` | prediction_helper.py:25-27 | the loop over the features returns exactly the zero-filled record `ZeroFilled` |
| `PredictionHelper.PrepareInput` | prediction_helper.py:17-35 | zero-fill, projection and scaling return exactly `Prepare` of the input |
| `PredictionHelper.Decision` | prediction_helper.py:44 | the decision is "Good" or "Bad", and "Bad" iff the probability is at least THRESHOLD = 0.3 |
| `PredictionHelper.DecisionMonotone` | prediction_helper.py:44 | if a probability yields "Bad", every higher probability yields "Bad" too |
| `PredictionHelper.Predict` | prediction_helper.py:38-46 | fails iff preparation fails or the probability row has no index 1, and says with which error; otherwise the probability is entry 1 of the classifier's row and the decision follows the threshold rule |
| `PredictionHelper.PredictRisk` | prediction_helper.py:38-46 | the method returns exactly `Predict` of the input |
| `Dashboard.UserInput` | main_3.py:121-132 | the record has exactly the ten fields; the score and late-payment fields carry the widget values; the delinquency field is the derived count of the two late-payment widgets |
| `Dashboard.UserInputCounts` | main_3.py:96-108 | within the widgets' ranges every field but the score is non-negative |
| `Dashboard.DelinquencyReachesClassifier` | main_3.py:111 | if the derived count is a trained feature that is not rescaled, the classifier sees exactly the displayed count |
| `Dashboard.Assess` | main_3.py:134-135 | the page's result fails iff the prediction fails; otherwise it carries the prediction's probability and decision and the score's band |
| `Dashboard.DefaultFormFacts` | main_3.py:96-108 | the initial widget values are in range; the band is Medium Risk and the derived count is 0 |

## Left out

- The page layout is presentation and has no logic to state: page configuration, styles, headers, columns, input widgets, the button and the metrics (main_3.py:1-73, 88-146). The widgets' ranges are kept as the predicate `Dashboard.InWidgetRange`.
- Loading the bundle from disk at import time (prediction_helper.py:5-11) is file I/O. The bundle is the `Artifacts` parameter, and `WellFormed` asks that its two column lists hold distinct names, as the columns of a training frame do.
- One-hot encoding with `drop_first` (prediction_helper.py:22) is a pandas library call. It is modelled as the identity, which it is on the all-integer record the page builds. Expanding categorical fields is not modelled.
- The scaler's arithmetic is not modelled: it is an opaque function. Any way the scaler could fail other than returning the wrong width is not modelled either.
- The classifier is an opaque function from the prepared frame to its class-probability row. Nothing is assumed about its values; the model does not claim the probability lies in [0, 1].
- There is no floating point. Counts are unbounded integers, as Python integers are. Scaled values and probabilities are exact reals. THRESHOLD is the real 3/10 rather than the nearest double, which matters only for a probability lying between that double and 3/10.
- pandas column types are not modelled. Scaled columns become floating point in pandas; in the model every cell of the prepared frame is a real, and an unscaled integer value `v` appears as `v as real`.
- Percentage formatting of the probability (main_3.py:141) is display only.
- main_3.py computes no qualitative band of the delinquency count.
