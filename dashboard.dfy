/**
 * The non-presentational part of the dashboard page: the record built
 * from the input widgets, with the derived delinquency count, and the
 * assessment shown when the user asks for a prediction.
 */
module Dashboard {
  import opened BusinessRules
  import opened PredictionHelper

  /** The values of the nine input widgets. */
  datatype Form = Form(
    scoreCr22: int,
    late12m: int,
    derogatories: int,
    late24m: int,
    ccFailures: int,
    recentIrregularity: int,
    activeCc: int,
    totalDefaults: int,
    openDefaults: int)

  /** The ranges the widgets accept. */
  predicate InWidgetRange(f: Form) {
    && -300 <= f.scoreCr22 <= 1200
    && f.late12m >= 0
    && f.derogatories >= 0
    && f.late24m >= 0
    && f.ccFailures >= 0
    && 0 <= f.recentIrregularity <= 25
    && f.activeCc >= 0
    && f.totalDefaults >= 0
    && f.openDefaults >= 0
  }

  /** The widgets' initial values. */
  const DefaultForm: Form := Form(650, 0, 0, 0, 0, 0, 1, 0, 0)

  const ScoreField: string := "SCORE_CR22"
  const Late12mField: string := "Late_Payment_30DPD_Last_12M"
  const Late24mField: string := "Late_Payment_30DPD_Last_24M"
  const DelinquencyField: string := "Long_Term_Payment_Delinquency_Count"

  const InputFields: set<string> := {
    ScoreField, "DEROGATORIES", Late12mField, Late24mField, DelinquencyField,
    "Credit_Card_Payment_Failure_Count", "Recent_Payment_Irregularity_Flag",
    "CREDIT_CARD_CR22", "DEFAULT_CNT_CR22", "DEFAULT_OPEN_CNT_CR22"}

  /**
   * The record sent for prediction: the ten named fields, among them the
   * derived count computed from the two late-payment widgets.
   */
  function UserInput(f: Form): (record: map<string, int>)
    ensures record.Keys == InputFields
    ensures record[ScoreField] == f.scoreCr22
    ensures record[Late12mField] == f.late12m && record[Late24mField] == f.late24m
    ensures record[DelinquencyField] == LongTermDelinquencyCount(f.late12m, f.late24m)
  {
    map[
      ScoreField := f.scoreCr22,
      "DEROGATORIES" := f.derogatories,
      Late12mField := f.late12m,
      Late24mField := f.late24m,
      DelinquencyField := LongTermDelinquencyCount(f.late12m, f.late24m),
      "Credit_Card_Payment_Failure_Count" := f.ccFailures,
      "Recent_Payment_Irregularity_Flag" := f.recentIrregularity,
      "CREDIT_CARD_CR22" := f.activeCc,
      "DEFAULT_CNT_CR22" := f.totalDefaults,
      "DEFAULT_OPEN_CNT_CR22" := f.openDefaults]
  }

  /** Within the widgets' ranges, every field but the score is a non-negative count. */
  lemma UserInputCounts(f: Form)
    requires InWidgetRange(f)
    ensures forall k :: k in UserInput(f) && k != ScoreField ==> UserInput(f)[k] >= 0
  {
    DelinquencyNonNegative(f.late12m, f.late24m);
  }

  /**
   * When the derived count is a trained feature that is not rescaled,
   * the classifier sees exactly the count the page displays.
   */
  lemma DelinquencyReachesClassifier(f: Form, art: Artifacts)
    requires WellFormed(art)
    requires DelinquencyField in art.features && DelinquencyField !in art.colsToScale
    ensures Prepare(UserInput(f), art).Ok? ==>
      Prepare(UserInput(f), art).value[IndexOf(art.features, DelinquencyField)].value
        == LongTermDelinquencyCount(f.late12m, f.late24m) as real
  {
    var k := IndexOf(art.features, DelinquencyField);
    var row := Align(UserInput(f), art.features);
    assert row[k].name == DelinquencyField;
    assert row[k].value == LongTermDelinquencyCount(f.late12m, f.late24m);
  }

  /** What the page shows after a prediction. */
  datatype Assessment = Assessment(probBad: real, decision: string, band: string)

  /** The prediction for the form's record, shown beside the score's band. */
  method Assess(f: Form, art: Artifacts) returns (res: Result<Assessment, PredictError>)
    requires WellFormed(art)
    ensures res.Ok? <==> Predict(UserInput(f), art).Ok?
    ensures res.Err? ==> res.error == Predict(UserInput(f), art).error
    ensures res.Ok? ==> res.value.probBad == Predict(UserInput(f), art).value.probBad
    ensures res.Ok? ==> res.value.decision == Predict(UserInput(f), art).value.decision
    ensures res.Ok? ==> res.value.band == Cr22RiskBand(f.scoreCr22)
  {
    var userInput := UserInput(f);
    var prediction := PredictRisk(userInput, art);
    if prediction.Err? {
      return Err(prediction.error);
    }
    var band := Cr22RiskBand(f.scoreCr22);
    res := Ok(Assessment(prediction.value.probBad, prediction.value.decision, band));
  }

  /** The initial form: in range, a "Medium Risk" score and no long-term delinquency. */
  lemma DefaultFormFacts()
    ensures InWidgetRange(DefaultForm)
    ensures Cr22RiskBand(DefaultForm.scoreCr22) == MediumRisk
    ensures UserInput(DefaultForm)[DelinquencyField] == 0
  {
  }
}
