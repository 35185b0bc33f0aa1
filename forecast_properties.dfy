/**
 * What the forecasting loop guarantees: the window is always the 30 most
 * recent rows of the seed followed by the predictions, every prediction is the
 * model applied to the window before it, a NaN from the gold model stops the
 * forecast before denormalisation, the saham one-hot columns are never
 * scaled, and a successful forecast has one close price per requested day.
 */
module ForecastProperties {
  import opened Wrappers
  import opened Arrays
  import opened ForecastEngine

  /** One successful iteration appends the loop body's prediction for the window before it. */
  lemma RolloutStep(path: Path, predict: Matrix -> Row, seed: Matrix, i: nat)
    requires path.GoldPath? ==> |seed| == WindowLength
    requires Rollout(path, predict, seed, i + 1).Ok?
    ensures Rollout(path, predict, seed, i).Ok?
    ensures var (w, before) := Rollout(path, predict, seed, i).value;
            var (w', preds) := Rollout(path, predict, seed, i + 1).value;
            |w| == WindowLength && |preds| == i + 1 && preds[..i] == before &&
            NextPrediction(path, predict, w) == Ok(preds[i]) && w' == Shift(w, preds[i])
  {
    var (w, before) := Rollout(path, predict, seed, i).value;
    var pred := NextPrediction(path, predict, w).value;
    assert (before + [pred])[..i] == before;
  }

  /** Rows `n - 1 ..` of a history, shifted by one more row, are rows `n ..` of the longer history. */
  lemma ShiftHistory(seed: Matrix, before: Matrix, preds: Matrix, n: nat)
    requires |seed| == WindowLength && 0 < n == |preds| && before == preds[..n - 1]
    ensures Shift((seed + before)[n - 1..], preds[n - 1]) == (seed + preds)[n..]
  {
    var w := (seed + before)[n - 1..];
    var all := seed + preds;
    assert all == seed + before + [preds[n - 1]];
    forall k | 0 <= k < WindowLength
      ensures Shift(w, preds[n - 1])[k] == all[n..][k]
    {
      if k < WindowLength - 1 {
        assert Shift(w, preds[n - 1])[k] == w[k + 1] == (seed + before)[n + k];
      }
    }
  }

  /**
   * After `n > 0` iterations the seed had 30 rows and the window is the last
   * 30 rows of the seed followed by the `n` predictions.
   */
  lemma {:induction false} RolloutWindow(path: Path, predict: Matrix -> Row, seed: Matrix, n: nat)
    requires path.GoldPath? ==> |seed| == WindowLength
    requires Rollout(path, predict, seed, n).Ok?
    ensures n > 0 ==> |seed| == WindowLength
    ensures n > 0 ==> Rollout(path, predict, seed, n).value.0 == (seed + Rollout(path, predict, seed, n).value.1)[n..]
  {
    if n > 0 {
      RolloutStep(path, predict, seed, n - 1);
      var (w, before) := Rollout(path, predict, seed, n - 1).value;
      var preds := Rollout(path, predict, seed, n).value.1;
      if n - 1 > 0 {
        RolloutWindow(path, predict, seed, n - 1);
      }
      assert w == (seed + before)[n - 1..];
      ShiftHistory(seed, before, preds, n);
    }
  }

  /** The predictions of a shorter run are a prefix of those of a longer one. */
  lemma {:induction false} RolloutPrefix(path: Path, predict: Matrix -> Row, seed: Matrix, k: nat, n: nat)
    requires path.GoldPath? ==> |seed| == WindowLength
    requires k <= n && Rollout(path, predict, seed, n).Ok?
    ensures Rollout(path, predict, seed, k).Ok?
    ensures Rollout(path, predict, seed, k).value.1 == Rollout(path, predict, seed, n).value.1[..k]
    decreases n - k
  {
    if k < n {
      RolloutPrefix(path, predict, seed, k, n - 1);
      PrefixOfPrefix(Rollout(path, predict, seed, n).value.1, Rollout(path, predict, seed, n - 1).value.1, k);
    }
  }

  lemma PrefixOfPrefix(s: Matrix, t: Matrix, k: nat)
    requires |t| + 1 == |s| && k <= |t| && t == s[..|t|]
    ensures t[..k] == s[..k]
  {
  }

  /**
   * Autoregression: the `i`-th prediction is what the loop body computes from
   * rows `i .. i + 29` of the seed followed by the predictions, that is, from
   * the last 30 seed rows and the earlier predictions, never from ground truth
   * after the seed.
   */
  lemma RolloutPredictionAt(path: Path, predict: Matrix -> Row, seed: Matrix, n: nat, i: nat)
    requires path.GoldPath? ==> |seed| == WindowLength
    requires Rollout(path, predict, seed, n).Ok? && i < n
    ensures |seed| == WindowLength
    ensures var preds := Rollout(path, predict, seed, n).value.1;
            NextPrediction(path, predict, (seed + preds)[i..i + WindowLength]) == Ok(preds[i])
  {
    var preds := Rollout(path, predict, seed, n).value.1;
    RolloutPrefix(path, predict, seed, i + 1, n);
    RolloutStep(path, predict, seed, i);
    RolloutWindow(path, predict, seed, i + 1);
    var (w, before) := Rollout(path, predict, seed, i).value;
    var upto := Rollout(path, predict, seed, i + 1).value.1;
    if i > 0 {
      RolloutWindow(path, predict, seed, i);
    }
    WindowOfPrefix(seed, preds, upto, before, i);
    assert w == (seed + preds)[i..i + WindowLength];
  }

  /** Rows `i ..` of the seed followed by `i` predictions are rows `i .. i + 29` of the whole history. */
  lemma WindowOfPrefix(seed: Matrix, preds: Matrix, upto: Matrix, before: Matrix, i: nat)
    requires |seed| == WindowLength && i < |preds|
    requires upto == preds[..i + 1] && before == upto[..i]
    ensures before == preds[..i] && upto[i] == preds[i]
    ensures (seed + before)[i..] == (seed + preds)[i..i + WindowLength]
  {
  }

  /**
   * Gold: if the model predicts a NaN at iteration `k` (counting from 0)
   * and `k` is below the horizon, the call fails with `PredictionNaN`,
   * whatever the scaler's inverse transform and whatever the model would
   * predict afterwards; no prediction of iteration `k` is kept.
   */
  lemma GoldNaNStopsForecast(predict: Matrix -> Row, seed: Matrix, cols: nat, scalerObj: map<string, Scaler>,
                             ticker: Option<string>, futureDays: int, k: nat)
    requires "gold" in scalerObj && |seed| == WindowLength && cols == scalerObj["gold"].nFeaturesIn
    requires k < futureDays
    requires Rollout(GoldPath(scalerObj["gold"]), predict, seed, k).Ok?
    requires var w := Rollout(GoldPath(scalerObj["gold"]), predict, seed, k).value.0;
             |predict(w)| == scalerObj["gold"].nFeaturesIn && RowHasNaN(predict(w))
    ensures Forecast(predict, seed, cols, scalerObj, Gold, ticker, futureDays) == Err(PredictionNaN)
  {
    var path := GoldPath(scalerObj["gold"]);
    var (w, preds) := Rollout(path, predict, seed, k).value;
    RolloutFailsAt(path, predict, seed, k, Horizon(futureDays), w, preds);
  }

  /**
   * The gold loop body refuses exactly the predictions of the wrong width or
   * holding a NaN, and a NaN is reported as `PredictionNaN`.
   */
  lemma GoldPredictionGuard(s: Scaler, predict: Matrix -> Row, w: Matrix)
    ensures NextPrediction(GoldPath(s), predict, w).Ok? <==>
              |predict(w)| == s.nFeaturesIn && !RowHasNaN(predict(w))
    ensures |predict(w)| != s.nFeaturesIn ==> NextPrediction(GoldPath(s), predict, w) == Err(ShapeMismatch)
    ensures |predict(w)| == s.nFeaturesIn && RowHasNaN(predict(w)) ==>
              NextPrediction(GoldPath(s), predict, w) == Err(PredictionNaN)
    ensures NextPrediction(GoldPath(s), predict, w).Ok? ==> NextPrediction(GoldPath(s), predict, w).value == predict(w)
  {
  }

  /**
   * The saham loop body succeeds exactly when the technical columns fit the
   * scaler, the window has 30 rows, the scaled block keeps its shape and the
   * model answers with `n_total` values; that answer is the model applied to
   * the scaled technical columns beside the unscaled one-hot columns.
   */
  lemma SahamPredictionGuard(s: Scaler, nTotal: nat, predict: Matrix -> Row, w: Matrix)
    ensures var scaled := s.transform(Columns(w, 0, s.nFeaturesIn));
            NextPrediction(SahamPath(s, nTotal), predict, w).Ok? <==>
              s.nFeaturesIn <= nTotal && |w| == WindowLength && Shaped(scaled, WindowLength, s.nFeaturesIn) &&
              |predict(SahamInput(s, nTotal, w, scaled))| == nTotal
    ensures var scaled := s.transform(Columns(w, 0, s.nFeaturesIn));
            NextPrediction(SahamPath(s, nTotal), predict, w).Ok? ==>
              NextPrediction(SahamPath(s, nTotal), predict, w).value == predict(SahamInput(s, nTotal, w, scaled))
    ensures NextPrediction(SahamPath(s, nTotal), predict, w).Err? ==>
              NextPrediction(SahamPath(s, nTotal), predict, w).error == ShapeMismatch
  {
  }

  /** Saham: the ticker checks come before any call to the scaler or the model. */
  lemma SahamTickerChecksFirst(predict: Matrix -> Row, seed: Matrix, cols: nat, scalerObj: map<string, Scaler>,
                               ticker: Option<string>, futureDays: int)
    requires ticker.None? || ticker.value !in scalerObj
    ensures Forecast(predict, seed, cols, scalerObj, Saham, ticker, futureDays)
            == if ticker.None? then Err(MissingTicker) else Err(ScalerNotFound(ticker.value))
  {
  }

  /**
   * Saham model input: the first `nFeaturesIn` columns are the scaled
   * technical columns, and the one-hot columns enter unscaled in the
   * positions they have in the window.
   */
  lemma SahamInputColumns(s: Scaler, nTotal: nat, w: Matrix, scaled: Matrix)
    requires s.nFeaturesIn <= nTotal
    requires Shaped(w, |w|, nTotal) && Shaped(scaled, |w|, s.nFeaturesIn)
    ensures Shaped(SahamInput(s, nTotal, w, scaled), |w|, nTotal)
    ensures forall i, j :: 0 <= i < |w| && 0 <= j < s.nFeaturesIn ==>
              SahamInput(s, nTotal, w, scaled)[i][j] == scaled[i][j]
    ensures forall i, j :: 0 <= i < |w| && s.nFeaturesIn <= j < nTotal ==>
              SahamInput(s, nTotal, w, scaled)[i][j] == w[i][j]
  {
    var input := SahamInput(s, nTotal, w, scaled);
    forall i, j | 0 <= i < |w| && s.nFeaturesIn <= j < nTotal
      ensures input[i][j] == w[i][j]
    {
      assert input[i] == scaled[i] + Slice(w[i], s.nFeaturesIn, nTotal);
    }
  }

  /**
   * Saham: a NaN that the model put in a one-hot column is never touched by
   * the scaler, so it reaches the final check and fails the call.
   */
  lemma SahamPassthroughNaNCaught(s: Scaler, nTotal: nat, preds: Matrix, i: nat, j: nat)
    requires Shaped(preds, |preds|, nTotal) && s.nFeaturesIn <= nTotal
    requires i < |preds| && s.nFeaturesIn <= j < nTotal && preds[i][j].NaN?
    requires Denormalise(SahamPath(s, nTotal), preds).Ok?
    ensures Finish(SahamPath(s, nTotal), preds) == Err(ForecastNaN)
  {
    var d: Matrix := Denormalise(SahamPath(s, nTotal), preds).value;
    assert d[i][j].NaN?;
    assert RowHasNaN(d[i]);
  }

  /** `inverse_transform` keeps the number of rows. */
  ghost predicate KeepsRows(f: Matrix -> Matrix)
  {
    forall m :: |f(m)| == |m|
  }

  /**
   * A successful forecast has exactly `future_days` close prices, provided the
   * gold scaler's inverse transform returns one row per row (the saham branch
   * checks the shape itself).
   */
  lemma ForecastLength(predict: Matrix -> Row, seed: Matrix, cols: nat, scalerObj: map<string, Scaler>,
                       instrument: Instrument, ticker: Option<string>, futureDays: int)
    requires Forecast(predict, seed, cols, scalerObj, instrument, ticker, futureDays).Ok?
    requires instrument == Gold ==> "gold" in scalerObj && KeepsRows(scalerObj["gold"].inverseTransform)
    ensures |Forecast(predict, seed, cols, scalerObj, instrument, ticker, futureDays).value| == futureDays
  {
    var path := SelectPath(scalerObj, instrument, ticker, seed, cols).value;
    var preds := Rollout(path, predict, seed, Horizon(futureDays)).value.1;
    assert |preds| == futureDays;
    assert |Denormalise(path, preds).value| == |preds|;
  }

  /**
   * The close prices are column 3 of the denormalised predictions, row by
   * row, and the forecast fails exactly when the loop, the denormalisation,
   * the NaN check or the column lookup does.
   */
  lemma ForecastIsCloseColumn(predict: Matrix -> Row, seed: Matrix, cols: nat, scalerObj: map<string, Scaler>,
                              instrument: Instrument, ticker: Option<string>, futureDays: int)
    requires SelectPath(scalerObj, instrument, ticker, seed, cols).Ok?
    ensures var path := SelectPath(scalerObj, instrument, ticker, seed, cols).value;
            var out := Forecast(predict, seed, cols, scalerObj, instrument, ticker, futureDays);
            var run := Rollout(path, predict, seed, Horizon(futureDays));
            (run.Err? ==> out == Err(run.error)) &&
            (run.Ok? ==>
               var d := Denormalise(path, run.value.1);
               (out.Ok? <==> d.Ok? && !HasNaN(d.value) && HasColumn(d.value, CloseColumn)) &&
               (out.Ok? ==> |out.value| == |d.value| &&
                            forall i :: 0 <= i < |out.value| ==> out.value[i] == d.value[i][CloseColumn]))
  {
  }
}
