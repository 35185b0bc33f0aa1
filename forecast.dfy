/**
 * The autoregressive forecasting loop of the prediction service
 * (`predict_future_price`): a fixed window of the 30 most recent feature rows
 * is fed to a trained sequence model, the predicted row is pushed into the
 * window, and after `future_days` steps the predictions are denormalised in
 * one batch and their close column is returned.
 *
 * The trained model and the fitted scalers are opaque: the model is a total
 * function from a window to a row, a scaler is its fitted column count and
 * its two transforms. Wherever numpy or the scaler would raise on an array of
 * the wrong shape, the model returns an error.
 */
module ForecastEngine {
  import opened Wrappers
  import opened Arrays

  /** Rows in the model's input window (`reshape(1, 30, n)`). */
  const WindowLength := 30

  /** Column of the close price in a feature row (`predictions_arr[:, 3]`). */
  const CloseColumn := 3

  datatype Instrument = Gold | Saham

  /** A fitted scaler: the number of columns it was fitted on and its two transforms. */
  datatype Scaler = Scaler(nFeaturesIn: nat, transform: Matrix -> Matrix, inverseTransform: Matrix -> Matrix)

  datatype Error =
    | MissingTicker              // saham without a ticker
    | ScalerNotFound(key: string) // no scaler for the ticker, or no "gold" entry
    | ShapeMismatch              // a slice, concatenation or reshape numpy refuses
    | PredictionNaN              // gold: the model predicted a NaN
    | InverseTransformFailed     // the batched denormalisation raised
    | ForecastNaN                // a NaN survived denormalisation
    | NoCloseColumn              // the denormalised rows have no column 3

  /**
   * The branch of the loop that runs, with what it reads: the saham branch
   * scales the first `scaler.nFeaturesIn` columns of a window that has `nTotal`
   * columns; the gold branch feeds the window to the model as it is.
   */
  datatype Path =
    | SahamPath(scaler: Scaler, nTotal: nat)
    | GoldPath(scaler: Scaler)

  /** Number of columns of a predicted row. */
  function Width(path: Path): nat
  {
    match path
    case SahamPath(_, nTotal) => nTotal
    case GoldPath(s) => s.nFeaturesIn
  }

  /** Iterations of `for _ in range(future_days)`. */
  function Horizon(futureDays: int): (r: nat)
    ensures r == 0 <==> futureDays <= 0
    ensures r > 0 ==> r == futureDays
  {
    if futureDays > 0 then futureDays else 0
  }

  /**
   * What happens before either loop starts: the ticker checks and scaler lookup
   * of the saham branch, the scaler lookup and the reshape to 30 x n_features of
   * the gold branch. `cols` is the seed array's column count (`shape[1]`).
   */
  function SelectPath(scalerObj: map<string, Scaler>, instrument: Instrument, ticker: Option<string>,
                      seed: Matrix, cols: nat): (r: Result<Path, Error>)
    ensures instrument == Saham && ticker.None? ==> r == Err(MissingTicker)
    ensures instrument == Saham && ticker.Some? && ticker.value !in scalerObj ==>
              r == Err(ScalerNotFound(ticker.value))
    ensures instrument == Saham && ticker.Some? && ticker.value in scalerObj ==>
              r.Ok? && r.value.SahamPath? && r.value.scaler == scalerObj[ticker.value] && r.value.nTotal == cols
    ensures instrument == Gold ==>
              (r.Ok? <==> "gold" in scalerObj && |seed| == WindowLength && cols == scalerObj["gold"].nFeaturesIn)
    ensures instrument == Gold && "gold" !in scalerObj ==> r == Err(ScalerNotFound("gold"))
    ensures instrument == Gold && r.Ok? ==> r.value.GoldPath? && r.value.scaler == scalerObj["gold"]
  {
    match instrument
    case Saham =>
      if ticker.None? then Err(MissingTicker)
      else if ticker.value !in scalerObj then Err(ScalerNotFound(ticker.value))
      else Ok(SahamPath(scalerObj[ticker.value], cols))
    case Gold =>
      if "gold" !in scalerObj then Err(ScalerNotFound("gold"))
      else
        var s := scalerObj["gold"];
        if |seed| != WindowLength || cols != s.nFeaturesIn then Err(ShapeMismatch)
        else Ok(GoldPath(s))
  }

  /**
   * The saham model input: the technical columns of the window scaled, the
   * one-hot columns beside them as they are.
   */
  function SahamInput(s: Scaler, nTotal: nat, w: Matrix, scaled: Matrix): (r: Matrix)
    requires |scaled| == |w|
    ensures |r| == |w|
    ensures forall i :: 0 <= i < |w| ==>
              |scaled[i]| <= |r[i]| && r[i][..|scaled[i]|] == scaled[i]
              && r[i][|scaled[i]|..] == Slice(w[i], s.nFeaturesIn, nTotal)
  {
    HConcat(scaled, Columns(w, s.nFeaturesIn, nTotal))
  }

  /**
   * One pass through a loop body up to the row it appends. Saham: slice,
   * scale the technical columns, recombine, predict. Gold: predict from the
   * window directly, then refuse a prediction holding a NaN.
   */
  function NextPrediction(path: Path, predict: Matrix -> Row, w: Matrix): (r: Result<Row, Error>)
    ensures r.Ok? ==> |r.value| == Width(path)
    ensures r.Ok? && path.SahamPath? ==> |w| == WindowLength && path.scaler.nFeaturesIn <= path.nTotal
  {
    match path
    case SahamPath(s, nTotal) =>
      var scaled := s.transform(Columns(w, 0, s.nFeaturesIn));
      if s.nFeaturesIn > nTotal || |w| != WindowLength || !Shaped(scaled, WindowLength, s.nFeaturesIn) then
        Err(ShapeMismatch)
      else
        var pred := predict(SahamInput(s, nTotal, w, scaled));
        if |pred| != nTotal then Err(ShapeMismatch) else Ok(pred)
    case GoldPath(s) =>
      var pred := predict(w);
      if |pred| != s.nFeaturesIn then Err(ShapeMismatch)
      else if RowHasNaN(pred) then Err(PredictionNaN)
      else Ok(pred)
  }

  /**
   * `np.roll(window, -1, axis=0)` followed by `window[-1] = pred`: the oldest
   * row is dropped, the prediction becomes the newest row.
   */
  function Shift(w: Matrix, pred: Row): (r: Matrix)
    requires |w| > 0
    ensures |r| == |w|
    ensures forall i :: 0 <= i < |w| - 1 ==> r[i] == w[i + 1]
    ensures r[|w| - 1] == pred
  {
    Roll(w)[|w| - 1 := pred]
  }

  /**
   * The first `n` iterations of the loop from the seed window: the window and
   * the list of predictions they leave behind, or the error of the first
   * iteration that raised.
   */
  function Rollout(path: Path, predict: Matrix -> Row, seed: Matrix, n: nat): (r: Result<(Matrix, Matrix), Error>)
    requires path.GoldPath? ==> |seed| == WindowLength
    ensures r.Ok? ==> Shaped(r.value.1, n, Width(path))
    ensures r.Ok? && n > 0 ==> |r.value.0| == WindowLength
    ensures r.Ok? && n == 0 ==> r.value.0 == seed
    ensures r.Ok? && n > 0 && path.SahamPath? ==> path.scaler.nFeaturesIn <= path.nTotal
  {
    if n == 0 then Ok((seed, []))
    else
      match Rollout(path, predict, seed, n - 1)
      case Err(e) => Err(e)
      case Ok((w, preds)) =>
        match NextPrediction(path, predict, w)
        case Err(e) => Err(e)
        case Ok(pred) => Ok((Shift(w, pred), preds + [pred]))
  }

  /**
   * The batched `inverse_transform` after the loop. Saham: only the technical
   * columns go through the scaler and are written back over the first
   * `nFeaturesIn` columns; gold: the whole matrix. An empty list of predictions
   * is a one-dimensional array, which both branches refuse.
   */
  function Denormalise(path: Path, preds: Matrix): (r: Result<Matrix, Error>)
    requires Shaped(preds, |preds|, Width(path))
    requires path.SahamPath? && |preds| > 0 ==> path.scaler.nFeaturesIn <= path.nTotal
    ensures |preds| == 0 ==> r == Err(InverseTransformFailed)
    ensures path.GoldPath? && |preds| > 0 ==> r == Ok(path.scaler.inverseTransform(preds))
    ensures path.SahamPath? && |preds| > 0 ==>
              (r.Ok? <==> Shaped(path.scaler.inverseTransform(Columns(preds, 0, path.scaler.nFeaturesIn)),
                                 |preds|, path.scaler.nFeaturesIn))
    ensures r.Ok? && path.SahamPath? ==> Shaped(r.value, |preds|, path.nTotal)
    ensures r.Ok? && path.SahamPath? ==>
              forall i, j :: 0 <= i < |preds| && path.scaler.nFeaturesIn <= j < path.nTotal ==>
                r.value[i][j] == preds[i][j]
    ensures r.Ok? && path.SahamPath? ==>
              forall i, j :: 0 <= i < |preds| && 0 <= j < path.scaler.nFeaturesIn ==>
                r.value[i][j] == path.scaler.inverseTransform(Columns(preds, 0, path.scaler.nFeaturesIn))[i][j]
  {
    if |preds| == 0 then Err(InverseTransformFailed)
    else
      match path
      case SahamPath(s, nTotal) =>
        var technical := s.inverseTransform(Columns(preds, 0, s.nFeaturesIn));
        if !Shaped(technical, |preds|, s.nFeaturesIn) then Err(InverseTransformFailed)
        else Ok(ReplaceColumns(preds, technical, s.nFeaturesIn))
      case GoldPath(s) =>
        Ok(s.inverseTransform(preds))
  }

  /** Denormalise, refuse any NaN, take the close column. */
  function Finish(path: Path, preds: Matrix): (r: Result<seq<Num>, Error>)
    requires Shaped(preds, |preds|, Width(path))
    requires path.SahamPath? && |preds| > 0 ==> path.scaler.nFeaturesIn <= path.nTotal
    ensures r.Ok? <==> Denormalise(path, preds).Ok? && !HasNaN(Denormalise(path, preds).value)
                       && HasColumn(Denormalise(path, preds).value, CloseColumn)
    ensures Denormalise(path, preds).Ok? && HasNaN(Denormalise(path, preds).value) ==> r == Err(ForecastNaN)
    ensures (Denormalise(path, preds).Ok? && !HasNaN(Denormalise(path, preds).value) &&
             !HasColumn(Denormalise(path, preds).value, CloseColumn)) ==> r == Err(NoCloseColumn)
    ensures r.Ok? ==> |r.value| == |Denormalise(path, preds).value|
    ensures r.Ok? ==> forall i :: 0 <= i < |r.value| ==>
                        r.value[i] == Denormalise(path, preds).value[i][CloseColumn] && r.value[i].Val?
  {
    match Denormalise(path, preds)
    case Err(e) => Err(e)
    case Ok(arr) =>
      if HasNaN(arr) then Err(ForecastNaN)
      else if !HasColumn(arr, CloseColumn) then Err(NoCloseColumn)
      else Ok(ColumnOf(arr, CloseColumn))
  }

  /** `predict_future_price` as a function of its arguments. */
  function Forecast(predict: Matrix -> Row, seed: Matrix, cols: nat, scalerObj: map<string, Scaler>,
                    instrument: Instrument, ticker: Option<string>, futureDays: int): (r: Result<seq<Num>, Error>)
    ensures r.Ok? ==> futureDays > 0
    ensures r.Ok? ==> forall i :: 0 <= i < |r.value| ==> r.value[i].Val?
  {
    match SelectPath(scalerObj, instrument, ticker, seed, cols)
    case Err(e) => Err(e)
    case Ok(path) =>
      match Rollout(path, predict, seed, Horizon(futureDays))
      case Err(e) => Err(e)
      case Ok((_, preds)) => Finish(path, preds)
  }

  /** A successful iteration extends the previous run by the loop body's prediction. */
  lemma RolloutNext(path: Path, predict: Matrix -> Row, seed: Matrix, i: nat, w: Matrix, preds: Matrix, pred: Row)
    requires path.GoldPath? ==> |seed| == WindowLength
    requires Rollout(path, predict, seed, i) == Ok((w, preds))
    requires NextPrediction(path, predict, w) == Ok(pred)
    ensures |w| == WindowLength
    ensures Rollout(path, predict, seed, i + 1) == Ok((Shift(w, pred), preds + [pred]))
  {
  }

  /** Once an iteration has raised, running the loop longer raises the same error. */
  lemma {:induction false} RolloutStaysFailed(path: Path, predict: Matrix -> Row, seed: Matrix, k: nat, n: nat)
    requires path.GoldPath? ==> |seed| == WindowLength
    requires k <= n && Rollout(path, predict, seed, k).Err?
    ensures Rollout(path, predict, seed, n) == Rollout(path, predict, seed, k)
    decreases n - k
  {
    if k < n {
      RolloutStaysFailed(path, predict, seed, k, n - 1);
    }
  }

  /** An iteration that raises decides the outcome of every longer run. */
  lemma RolloutFailsAt(path: Path, predict: Matrix -> Row, seed: Matrix, i: nat, n: nat, w: Matrix, preds: Matrix)
    requires path.GoldPath? ==> |seed| == WindowLength
    requires i < n && Rollout(path, predict, seed, i) == Ok((w, preds))
    requires NextPrediction(path, predict, w).Err?
    ensures Rollout(path, predict, seed, n) == Err(NextPrediction(path, predict, w).error)
  {
    assert Rollout(path, predict, seed, i + 1) == Err(NextPrediction(path, predict, w).error);
    RolloutStaysFailed(path, predict, seed, i + 1, n);
  }

  /** The saham loop (`for _ in range(future_days)` on the saham branch). */
  method SahamLoop(predict: Matrix -> Row, lastSequence: Matrix, scaler: Scaler, nTotal: nat, n: nat)
    returns (r: Result<(Matrix, Matrix), Error>)
    ensures r == Rollout(SahamPath(scaler, nTotal), predict, lastSequence, n)
  {
    ghost var path := SahamPath(scaler, nTotal);
    var nTechnical := scaler.nFeaturesIn;
    var predictions: Matrix := [];
    var window := lastSequence;
    var i := 0;
    while i < n
      invariant i <= n
      invariant Rollout(path, predict, lastSequence, i) == Ok((window, predictions))
    {
      var inputTechnical := Columns(window, 0, nTechnical);
      var inputOneHot := Columns(window, nTechnical, nTotal);
      var inputTechnicalScaled := scaler.transform(inputTechnical);
      if nTechnical > nTotal || |window| != WindowLength || !Shaped(inputTechnicalScaled, WindowLength, nTechnical) {
        assert NextPrediction(path, predict, window) == Err(ShapeMismatch);
        RolloutFailsAt(path, predict, lastSequence, i, n, window, predictions);
        return Err(ShapeMismatch);
      }
      var modelInput := HConcat(inputTechnicalScaled, inputOneHot);
      assert modelInput == SahamInput(scaler, nTotal, window, inputTechnicalScaled);
      var pred := predict(modelInput);
      if |pred| != nTotal {
        assert NextPrediction(path, predict, window) == Err(ShapeMismatch);
        RolloutFailsAt(path, predict, lastSequence, i, n, window, predictions);
        return Err(ShapeMismatch);
      }
      assert NextPrediction(path, predict, window) == Ok(pred);
      RolloutNext(path, predict, lastSequence, i, window, predictions, pred);
      predictions := predictions + [pred];
      window := Roll(window);
      window := window[WindowLength - 1 := pred];
      i := i + 1;
    }
    r := Ok((window, predictions));
  }

  /** The gold loop, with its NaN check before the prediction is appended. */
  method GoldLoop(predict: Matrix -> Row, lastSequence: Matrix, scaler: Scaler, n: nat)
    returns (r: Result<(Matrix, Matrix), Error>)
    requires |lastSequence| == WindowLength
    ensures r == Rollout(GoldPath(scaler), predict, lastSequence, n)
  {
    ghost var path := GoldPath(scaler);
    var nFeatures := scaler.nFeaturesIn;
    var predictions: Matrix := [];
    var window := lastSequence;
    var i := 0;
    while i < n
      invariant i <= n
      invariant |window| == WindowLength
      invariant Rollout(path, predict, lastSequence, i) == Ok((window, predictions))
    {
      var pred := predict(window);
      if |pred| != nFeatures {
        assert NextPrediction(path, predict, window) == Err(ShapeMismatch);
        RolloutFailsAt(path, predict, lastSequence, i, n, window, predictions);
        return Err(ShapeMismatch);
      }
      if RowHasNaN(pred) {
        assert NextPrediction(path, predict, window) == Err(PredictionNaN);
        RolloutFailsAt(path, predict, lastSequence, i, n, window, predictions);
        return Err(PredictionNaN);
      }
      assert NextPrediction(path, predict, window) == Ok(pred);
      RolloutNext(path, predict, lastSequence, i, window, predictions, pred);
      predictions := predictions + [pred];
      window := Roll(window);
      window := window[WindowLength - 1 := pred];
      i := i + 1;
    }
    r := Ok((window, predictions));
  }

  /** The batched denormalisation, the NaN check and the close column of `predict_future_price`. */
  method DenormaliseAndClose(path: Path, predictions: Matrix) returns (r: Result<seq<Num>, Error>)
    requires Shaped(predictions, |predictions|, Width(path))
    requires path.SahamPath? && |predictions| > 0 ==> path.scaler.nFeaturesIn <= path.nTotal
    ensures r == Finish(path, predictions)
  {
    if |predictions| == 0 {
      return Err(InverseTransformFailed);
    }
    var scaler := path.scaler;
    var predictionsArr: Matrix;
    if path.SahamPath? {
      var nTechnical := scaler.nFeaturesIn;
      var predTechnicalOnly := scaler.inverseTransform(Columns(predictions, 0, nTechnical));
      if !Shaped(predTechnicalOnly, |predictions|, nTechnical) {
        return Err(InverseTransformFailed);
      }
      predictionsArr := ReplaceColumns(predictions, predTechnicalOnly, nTechnical);
    } else {
      predictionsArr := scaler.inverseTransform(predictions);
    }
    if HasNaN(predictionsArr) {
      return Err(ForecastNaN);
    }
    if !HasColumn(predictionsArr, CloseColumn) {
      return Err(NoCloseColumn);
    }
    r := Ok(ColumnOf(predictionsArr, CloseColumn));
  }

  /**
   * The model of `predict_future_price`: choose the branch and its scaler,
   * run its loop, then denormalise and take the close column.
   */
  method PredictFuturePrice(predict: Matrix -> Row, lastSequence: Matrix, cols: nat,
                            scalerObj: map<string, Scaler>, instrument: Instrument,
                            ticker: Option<string>, futureDays: int)
    returns (r: Result<seq<Num>, Error>)
    ensures r == Forecast(predict, lastSequence, cols, scalerObj, instrument, ticker, futureDays)
  {
    var path: Path;
    var loop: Result<(Matrix, Matrix), Error>;
    if instrument == Saham {
      if ticker.None? {
        return Err(MissingTicker);
      }
      if ticker.value !in scalerObj {
        return Err(ScalerNotFound(ticker.value));
      }
      var scaler := scalerObj[ticker.value];
      path := SahamPath(scaler, cols);
      loop := SahamLoop(predict, lastSequence, scaler, cols, Horizon(futureDays));
    } else {
      if "gold" !in scalerObj {
        return Err(ScalerNotFound("gold"));
      }
      var scaler := scalerObj["gold"];
      if |lastSequence| != WindowLength || cols != scaler.nFeaturesIn {
        return Err(ShapeMismatch);
      }
      path := GoldPath(scaler);
      loop := GoldLoop(predict, lastSequence, scaler, Horizon(futureDays));
    }
    if loop.Err? {
      return Err(loop.error);
    }
    r := DenormaliseAndClose(path, loop.value.1);
  }
}
