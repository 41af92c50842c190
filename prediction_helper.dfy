/**
 * Preparing one input record for the trained classifier, and turning the
 * classifier's probability of the "Bad" class into a decision.
 *
 * The trained feature list, the list of columns to scale, the fitted
 * scaler and the classifier are the loaded model bundle, taken here as
 * one `Artifacts` value. The scaler and the classifier are opaque
 * functions: only which columns they see and where their output goes
 * is modelled.
 */
module PredictionHelper {

  datatype Result<+T, +E> = Ok(value: T) | Err(error: E)

  /** Index of the "Bad" class in the classifier's probability row. */
  const BAD_CLASS: nat := 1
  /** The business-rule cut-off on the probability of "Bad". */
  const THRESHOLD: real := 0.3

  const Bad: string := "Bad"
  const Good: string := "Good"

  /** One named column of a single-row frame. */
  datatype Cell<V> = Cell(name: string, value: V)

  /** The loaded model bundle. */
  datatype Artifacts = Artifacts(
    features: seq<string>,
    colsToScale: seq<string>,
    // the fitted scaler's transform: the named sub-frame in, one row of values out
    scaler: seq<Cell<int>> -> seq<real>,
    // the classifier's probability estimate: the aligned frame in, one row of class probabilities out
    model: seq<Cell<real>> -> seq<real>)

  datatype PrepareError =
    | MissingColumn(name: string)                  // a column to scale is not a column of the frame
    | ScalerShapeMismatch(expected: nat, got: nat)  // the scaler's row is not one value per scaled column

  datatype PredictError =
    | PrepareFailed(cause: PrepareError)
    | NoBadClass(width: nat)                        // the probability row has no entry BAD_CLASS

  datatype Prediction = Prediction(probBad: real, decision: string)

  predicate Distinct(s: seq<string>) {
    forall i, j :: 0 <= i < j < |s| ==> s[i] != s[j]
  }

  /** Column lists of a bundle are lists of distinct names, as those of a training frame are. */
  predicate WellFormed(art: Artifacts) {
    Distinct(art.features) && Distinct(art.colsToScale)
  }

  /** The column labels of a row, in order. */
  function Names<V>(row: seq<Cell<V>>): (names: seq<string>)
    ensures |names| == |row|
    ensures forall i :: 0 <= i < |row| ==> names[i] == row[i].name
  {
    if row == [] then [] else [row[0].name] + Names(row[1..])
  }

  /** Position of the first occurrence of `x` in `s`. */
  function IndexOf(s: seq<string>, x: string): (k: nat)
    requires x in s
    ensures k < |s| && s[k] == x
    ensures forall j :: 0 <= j < k ==> s[j] != x
  {
    if s[0] == x then 0 else 1 + IndexOf(s[1..], x)
  }

  // ---------------------------------------------------------------------
  // Alignment to the trained schema
  // ---------------------------------------------------------------------

  /**
   * The record after adding, in turn, every column of `cols` that it
   * lacks, with value 0.
   */
  function ZeroFilled(df: map<string, int>, cols: seq<string>): (r: map<string, int>)
    ensures r.Keys == df.Keys + set c | c in cols
    ensures forall c :: c in df ==> r[c] == df[c]
    ensures forall c :: c in r && c !in df ==> r[c] == 0
    decreases cols
  {
    if cols == [] then df
    else
      var next := if cols[0] in df then df else df[cols[0] := 0];
      assert (set c | c in cols) == {cols[0]} + set c | c in cols[1..];
      ZeroFilled(next, cols[1..])
  }

  /** The single-row frame restricted to `cols`, in that order. */
  function Select(df: map<string, int>, cols: seq<string>): (row: seq<Cell<int>>)
    requires forall c :: c in cols ==> c in df
    ensures Names(row) == cols
    ensures forall i :: 0 <= i < |row| ==> row[i].value == df[cols[i]]
  {
    var row := seq(|cols|, i requires 0 <= i < |cols| => Cell(cols[i], df[cols[i]]));
    assert Names(row) == cols;
    row
  }

  /**
   * Zero-fill followed by projection onto the trained order: the
   * frame's columns are exactly `features`, a feature the record has
   * keeps its value and a feature it lacks is 0.
   */
  function Align(record: map<string, int>, features: seq<string>): (row: seq<Cell<int>>)
    ensures Names(row) == features
    ensures forall i :: 0 <= i < |row| && features[i] in record ==> row[i].value == record[features[i]]
    ensures forall i :: 0 <= i < |row| && features[i] !in record ==> row[i].value == 0
  {
    Select(ZeroFilled(record, features), features)
  }

  /** A record key that is not a trained feature is not a column of the aligned frame. */
  lemma AlignDropsUnknownKeys(record: map<string, int>, features: seq<string>, key: string)
    requires key in record && key !in features
    ensures key !in Names(Align(record, features))
  {
  }

  /** The record of a single-row frame: column label to value, a later column overriding an earlier one. */
  function ToRecord<V>(row: seq<Cell<V>>): (record: map<string, V>)
  {
    if row == [] then map[]
    else ToRecord(row[..|row| - 1])[row[|row| - 1].name := row[|row| - 1].value]
  }

  /** A frame whose every cell agrees with `m` has `m`'s values as its record, on exactly its columns. */
  lemma {:induction false} ToRecordAgrees<V>(row: seq<Cell<V>>, m: map<string, V>)
    requires forall i :: 0 <= i < |row| ==> row[i].name in m && row[i].value == m[row[i].name]
    ensures forall c :: c in ToRecord(row) <==> c in Names(row)
    ensures forall c :: c in ToRecord(row) ==> c in m && ToRecord(row)[c] == m[c]
  {
    if row != [] {
      var init, last := row[..|row| - 1], row[|row| - 1];
      assert forall i :: 0 <= i < |init| ==> init[i] == row[i];
      ToRecordAgrees(init, m);
      assert Names(row) == Names(init) + [last.name];
    }
  }

  /** Aligning an already aligned frame again gives back the same frame. */
  lemma AlignIdempotent(record: map<string, int>, features: seq<string>)
    ensures Align(ToRecord(Align(record, features)), features) == Align(record, features)
  {
    var row := Align(record, features);
    var zf := ZeroFilled(record, features);
    assert forall i :: 0 <= i < |row| ==> row[i].name in zf && row[i].value == zf[row[i].name];
    ToRecordAgrees(row, zf);
    var again := Align(ToRecord(row), features);
    assert |again| == |row|;
    forall i | 0 <= i < |row|
      ensures again[i] == row[i]
    {
      assert again[i].name == features[i] == row[i].name;
    }
  }

  // ---------------------------------------------------------------------
  // Scaling a subset of the columns
  // ---------------------------------------------------------------------

  /** The sub-frame of `row` made of the columns `cols`, in that order; a column `row` lacks is an error. */
  function SubFrame(row: seq<Cell<int>>, cols: seq<string>): (r: Result<seq<Cell<int>>, PrepareError>)
    ensures r.Ok? <==> forall c :: c in cols ==> c in Names(row)
    ensures r.Ok? ==> Names(r.value) == cols
    ensures r.Ok? ==> forall k :: 0 <= k < |cols| ==> r.value[k] == row[IndexOf(Names(row), cols[k])]
    ensures r.Err? ==> r.error.MissingColumn? && r.error.name in cols && r.error.name !in Names(row)
  {
    if cols == [] then Ok([])
    else if cols[0] !in Names(row) then
      assert cols[0] in cols;
      Err(MissingColumn(cols[0]))
    else
      match SubFrame(row, cols[1..])
      case Err(e) =>
        assert e.name in cols;
        Err(e)
      case Ok(rest) =>
        var sub := [row[IndexOf(Names(row), cols[0])]] + rest;
        assert Names(sub) == [cols[0]] + Names(rest);
        Ok(sub)
  }

  /**
   * Replace the columns `cols` of `row` by the scaler's transform of
   * that sub-frame. The column order is kept and every other column
   * keeps its value.
   */
  function Scale(row: seq<Cell<int>>, cols: seq<string>, scaler: seq<Cell<int>> -> seq<real>)
    : (r: Result<seq<Cell<real>>, PrepareError>)
    requires Distinct(cols)
    ensures r.Err? <==> SubFrame(row, cols).Err? || |scaler(SubFrame(row, cols).value)| != |cols|
    ensures r.Ok? ==> Names(r.value) == Names(row)
    ensures r.Ok? ==> forall i :: 0 <= i < |row| && row[i].name !in cols ==> r.value[i].value == row[i].value as real
    ensures r.Ok? ==> forall i :: 0 <= i < |row| && row[i].name in cols ==>
      r.value[i].value == scaler(SubFrame(row, cols).value)[IndexOf(cols, row[i].name)]
  {
    match SubFrame(row, cols)
    case Err(e) => Err(e)
    case Ok(sub) =>
      var scaled := scaler(sub);
      if |scaled| != |cols| then Err(ScalerShapeMismatch(|cols|, |scaled|))
      else
        var out := seq(|row|, i requires 0 <= i < |row| =>
          Cell(row[i].name, if row[i].name in cols then scaled[IndexOf(cols, row[i].name)] else row[i].value as real));
        assert Names(out) == Names(row);
        Ok(out)
  }

  /** The frame handed to the classifier. */
  function Prepare(record: map<string, int>, art: Artifacts): (r: Result<seq<Cell<real>>, PrepareError>)
    requires WellFormed(art)
    ensures r.Err? <==>
      || !(forall c :: c in art.colsToScale ==> c in art.features)
      || |art.scaler(SubFrame(Align(record, art.features), art.colsToScale).value)| != |art.colsToScale|
    ensures r.Ok? ==> Names(r.value) == art.features
    ensures r.Ok? ==> forall i :: 0 <= i < |art.features| && art.features[i] !in art.colsToScale ==>
      r.value[i].value == if art.features[i] in record then record[art.features[i]] as real else 0.0
    ensures r.Ok? ==> forall i :: 0 <= i < |art.features| && art.features[i] in art.colsToScale ==>
      r.value[i].value
        == art.scaler(SubFrame(Align(record, art.features), art.colsToScale).value)[IndexOf(art.colsToScale, art.features[i])]
  {
    Scale(Align(record, art.features), art.colsToScale, art.scaler)
  }

  /** The zero-fill loop: add each feature the record lacks, with value 0. */
  method AddMissingColumns(record: map<string, int>, features: seq<string>) returns (df: map<string, int>)
    ensures df == ZeroFilled(record, features)
  {
    df := record;
    for i := 0 to |features|
      invariant ZeroFilled(df, features[i..]) == ZeroFilled(record, features)
    {
      var col := features[i];
      assert features[i..][1..] == features[i + 1..];
      if col !in df {
        df := df[col := 0];
      }
    }
    assert features[|features|..] == [];
  }

  /**
   * The record's own columns are already the trained encoding (every
   * value is an integer, so one-hot encoding leaves it unchanged); add
   * the missing features as 0, keep the trained order, then scale.
   */
  method PrepareInput(userInput: map<string, int>, art: Artifacts) returns (res: Result<seq<Cell<real>>, PrepareError>)
    requires WellFormed(art)
    ensures res == Prepare(userInput, art)
  {
    var df := AddMissingColumns(userInput, art.features);
    // keep the training order
    var row := Select(df, art.features);
    // scale the numeric columns
    res := Scale(row, art.colsToScale, art.scaler);
  }

  // ---------------------------------------------------------------------
  // The decision
  // ---------------------------------------------------------------------

  /** "Bad" exactly when the probability of "Bad" reaches the threshold. */
  function Decision(probBad: real): (verdict: string)
    ensures verdict == Bad || verdict == Good
    ensures verdict == Bad <==> probBad >= THRESHOLD
  {
    if probBad >= THRESHOLD then Bad else Good
  }

  /** A higher probability of "Bad" never turns a "Bad" decision into "Good". */
  lemma DecisionMonotone(p1: real, p2: real)
    requires p1 <= p2 && Decision(p1) == Bad
    ensures Decision(p2) == Bad
  {
  }

  /** Prepare the record, read the classifier's probability of "Bad", decide. */
  function Predict(record: map<string, int>, art: Artifacts): (r: Result<Prediction, PredictError>)
    requires WellFormed(art)
    ensures r.Err? <==> Prepare(record, art).Err? || |art.model(Prepare(record, art).value)| <= BAD_CLASS
    ensures r.Err? && Prepare(record, art).Err? ==> r.error == PrepareFailed(Prepare(record, art).error)
    ensures r.Err? && Prepare(record, art).Ok? ==> r.error == NoBadClass(|art.model(Prepare(record, art).value)|)
    ensures r.Ok? ==> r.value.probBad == art.model(Prepare(record, art).value)[BAD_CLASS]
    ensures r.Ok? ==> (r.value.decision == Bad <==> r.value.probBad >= THRESHOLD)
    ensures r.Ok? ==> r.value.decision == Bad || r.value.decision == Good
  {
    match Prepare(record, art)
    case Err(e) => Err(PrepareFailed(e))
    case Ok(df) =>
      var probs := art.model(df);
      if |probs| <= BAD_CLASS then Err(NoBadClass(|probs|))
      else Ok(Prediction(probs[BAD_CLASS], Decision(probs[BAD_CLASS])))
  }

  /**
   * The executable prediction: it runs the zero-fill loop of
   * `PrepareInput`, which a function cannot call, and is proved to
   * return exactly the specification `Predict`.
   */
  method PredictRisk(userInput: map<string, int>, art: Artifacts) returns (res: Result<Prediction, PredictError>)
    requires WellFormed(art)
    ensures res == Predict(userInput, art)
  {
    var df := PrepareInput(userInput, art);
    if df.Err? {
      return Err(PrepareFailed(df.error));
    }
    var probs := art.model(df.value);
    if |probs| <= BAD_CLASS {
      return Err(NoBadClass(|probs|));
    }
    var probBad := probs[BAD_CLASS];
    var decision := Decision(probBad);
    res := Ok(Prediction(probBad, decision));
  }
}
