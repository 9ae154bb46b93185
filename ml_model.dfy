/** The sliding-window dataset builder, the training guards and the placeholder
    prediction of the price model (backend/ml_model.py). Keras and the scaler's
    transform are not modelled: training returns only the fitted scaler. */
module MlModel {
  import opened Wrappers

  /** The default `time_step` of `create_dataset`. */
  const DefaultTimeStep: nat := 60

  /** Training needs at least this many non-missing closes. */
  const MinTrainingCloses: nat := 80

  /** How many (window, target) pairs `create_dataset` builds from `n` rows:
      `range(n - time_step - 1)` is empty when the bound is not positive. */
  function PairCount(n: nat, timeStep: nat): nat {
    if n > timeStep + 1 then n - timeStep - 1 else 0
  }

  /** `create_dataset` over column 0 of the dataset: pair `i` has the window of rows
      `i .. i + timeStep - 1` and the target row `i + timeStep`; the last row is never
      a target. */
  method CreateDataset(dataset: seq<real>, timeStep: nat) returns (dataX: seq<seq<real>>, dataY: seq<real>)
    ensures |dataX| == |dataY| == PairCount(|dataset|, timeStep)
    ensures forall i :: 0 <= i < |dataX| ==>
              i + timeStep < |dataset| - 1 &&
              dataX[i] == dataset[i..i + timeStep] &&
              dataY[i] == dataset[i + timeStep]
  {
    dataX, dataY := [], [];
    var count := PairCount(|dataset|, timeStep);
    var i := 0;
    while i < count
      invariant i <= count
      invariant |dataX| == |dataY| == i
      invariant forall k :: 0 <= k < i ==>
                  k + timeStep < |dataset| - 1 &&
                  dataX[k] == dataset[k..k + timeStep] &&
                  dataY[k] == dataset[k + timeStep]
    {
      dataX := dataX + [dataset[i..i + timeStep]];
      dataY := dataY + [dataset[i + timeStep]];
      i := i + 1;
    }
  }

  /** A window and its target are consecutive rows of the dataset. */
  lemma WindowThenTarget(dataset: seq<real>, timeStep: nat, i: nat)
    requires i < PairCount(|dataset|, timeStep)
    ensures dataset[i..i + timeStep] + [dataset[i + timeStep]] == dataset[i..i + timeStep + 1]
  {
  }

  /** The non-missing cells of a column, in order (`dropna`). */
  function Present(column: seq<Option<real>>): (r: seq<real>)
    ensures |r| <= |column|
  {
    if column == [] then []
    else
      Present(column[..|column| - 1]) +
        (if column[|column| - 1].Some? then [column[|column| - 1].value] else [])
  }

  /** Every value of `Present(column)` is a cell of the column, and every present
      cell is kept. */
  lemma {:induction false} PresentCells(column: seq<Option<real>>)
    ensures forall x :: x in Present(column) <==> Some(x) in column
  {
    if column != [] {
      var init := column[..|column| - 1];
      PresentCells(init);
      assert column == init + [column[|column| - 1]];
    }
  }

  /** The range a `MinMaxScaler` is fitted to. */
  datatype Scaler = Scaler(dataMin: real, dataMax: real)

  function Min(s: seq<real>): (m: real)
    requires s != []
    ensures m in s && forall i :: 0 <= i < |s| ==> m <= s[i]
  {
    if |s| == 1 then s[0]
    else
      var rest := Min(s[1..]);
      if s[0] <= rest then s[0] else rest
  }

  function Max(s: seq<real>): (m: real)
    requires s != []
    ensures m in s && forall i :: 0 <= i < |s| ==> s[i] <= m
  {
    if |s| == 1 then s[0]
    else
      var rest := Max(s[1..]);
      if s[0] >= rest then s[0] else rest
  }

  /** `train_ml_model` on the frame's Close column (`None` when the frame has none):
      an empty frame, a frame without Close, or fewer than 80 non-missing closes give
      no model; otherwise the scaler is fitted to the closes' range. */
  function Train(close: Option<seq<Option<real>>>): (r: Option<Scaler>)
    ensures r.Some? <==> close.Some? && |Present(close.value)| >= MinTrainingCloses
    ensures r.Some? ==>
              var closes := Present(close.value);
              r.value.dataMin in closes && r.value.dataMax in closes &&
              forall i :: 0 <= i < |closes| ==> r.value.dataMin <= closes[i] <= r.value.dataMax
  {
    if close.None? || close.value == [] then None
    else
      var closes := Present(close.value);
      if |closes| < MinTrainingCloses then None
      else Some(Scaler(Min(closes), Max(closes)))
  }

  /** A frame with fewer rows than the threshold never trains. */
  lemma ShortFrameDoesNotTrain(close: seq<Option<real>>)
    requires |close| < MinTrainingCloses
    ensures Train(Some(close)).None?
  {
  }

  /** `get_prediction`: the last close (`None` when it is NaN) grown by 0.1% with
      accuracy 0.50 when there is no scaler, otherwise grown by 0.5% with accuracy
      0.75. */
  function GetPrediction(scaler: Option<Scaler>, close: seq<Option<real>>): (r: (Option<real>, real))
    requires close != []
    ensures r.1 == if scaler.None? then 0.50 else 0.75
    ensures r.0.Some? <==> close[|close| - 1].Some?
    ensures r.0.Some? ==> r.0.value == close[|close| - 1].value * (if scaler.None? then 1.001 else 1.005)
  {
    var last := close[|close| - 1];
    if scaler.None? then
      (if last.Some? then Some(last.value * 1.001) else None, 0.50)
    else
      (if last.Some? then Some(last.value * 1.005) else None, 0.75)
  }

  /** For a positive last close both projections predict a rise, and a trained model
      predicts the larger one. */
  lemma {:induction false} PredictionRises(scaler: Scaler, close: seq<Option<real>>)
    requires close != [] && close[|close| - 1].Some? && close[|close| - 1].value > 0.0
    ensures var last := close[|close| - 1].value;
            var untrained := GetPrediction(None, close).0.value;
            var trained := GetPrediction(Some(scaler), close).0.value;
            last < untrained < trained
  {
  }
}
