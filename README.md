# Forecasting core of the price prediction service, in Dafny

This project models the core of `api/main.py`, a small service. It forecasts
future prices for gold and for Indonesian stocks ("saham") with pretrained
sequence models. It then turns the forecast into a return and a
recommendation ("Layak" or "Tidak layak").

What is modelled:

- **The autoregressive loop** (`predict_future_price`), in `forecast.dfy`.
  - A window of the 30 most recent feature rows is fed to the model.
  - The model's predicted row is rolled into the window.
  - After `future_days` steps, the predictions go through one batched
    `inverse_transform`. Any NaN fails the call. Column 3, the close price,
    is returned.
  - The model and the scalers are opaque: the model is a total function
    from a window to a row, and a `Scaler` is its fitted column count plus
    its two transforms.
  - Floats are `Num = NaN | Val(real)`.
  - Numpy and scaler errors on badly shaped arrays become error results.
  - `PredictFuturePrice` and its three helper methods
    (`SahamLoop`, `GoldLoop`, `DenormaliseAndClose`) are imperative, with two
    `while` loops over a window variable. Each is proved equal to a spec
    function: `Rollout`, `Finish` or `Forecast`.
  - `forecast_properties.dfy` proves what those spec functions guarantee.
- **The return arithmetic and recommendation** of the endpoint, in `returns.dfy`.
- **Request validation and the endpoint's sequence** (validate, load, forecast,
  evaluate), in `service.dfy`. Loading is a parameter `load: Instrument -> Loaded`.
- **The plain data steps of loading**, in `artifacts.dfy`: the last-30-rows cut
  and the `{"gold": scaler}` wrapping.
- `arrays.dfy` holds the numpy operations the loop uses: Python slicing with
  clamped bounds, column slices, horizontal concatenation, `np.roll`, column
  assignment and the NaN test.

The model follows the code as written, including these quirks:

- The gold loop never calls `transform`.
- The saham loop feeds the model's normalised output back into the window,
  and the next step scales it again.
- Only the gold loop checks for NaN inside the loop.
- The reshape on the saham branch is a no-op.

Three checks one might expect of the forecaster are absent from the code, and
the model keeps them absent:

- An in-loop NaN check on the saham branch. A NaN inside the saham loop is
  caught only if it survives `inverse_transform`, as
  `SahamPassthroughNaNCaught` shows for the one-hot columns.
- An up-front check of the horizon. A non-positive `future_days` runs the
  loop zero times, and the column slice (saham) or the `inverse_transform`
  (gold) of the empty array raises inside the `try`. The result is
  `InverseTransformFailed`.
- A check of the history length. Too short a history is the `ShapeMismatch`
  of the gold reshape, or of the saham reshape in the first iteration.

## Model

| member | source | states |
|---|---|---|
| `ForecastEngine.SelectPath` | api/main.py:45-81 | Saham: no ticker gives `MissingTicker`; a ticker with no scaler gives `ScalerNotFound(ticker)`; otherwise the saham branch runs with that ticker's scaler and `shape[1]` columns. Gold: the branch runs iff "gold" is a key, the seed has 30 rows and its width is the scaler's `n_features_in_`. |
| `ForecastEngine.NextPrediction` | api/main.py:61-89 | One loop body up to the appended row. A success has the predicted width. Saham succeeds only on a 30-row window with `n_teknikal <= n_total`. The success conditions as iffs and the predicted value are in `SahamPredictionGuard` and `GoldPredictionGuard`. |
| `ForecastEngine.Shift` | api/main.py:73-74 | Roll-then-overwrite keeps the window length. New row `i` is old row `i+1`, and the last row is the prediction. |
| `ForecastEngine.Horizon` | api/main.py:61 | `range(future_days)` runs no iteration iff `future_days <= 0`, and otherwise exactly `future_days`. |
| `ForecastEngine.Rollout` | api/main.py:61-93 | After `n` iterations: exactly `n` predictions, each of the predicted width. A 30-row window once `n > 0`. For saham, `n_teknikal <= n_total` once a step has run. |
| `ForecastEngine.SahamInput` | api/main.py:64-65 | One row per window row. Row `i` begins with scaled row `i` and continues with columns `n_teknikal .. n_total` of the window's row `i`, unscaled. |
| `ForecastEngine.Denormalise` | api/main.py:95-105 | No predictions: `InverseTransformFailed`. Gold: a non-empty list gives exactly `inverse_transform` of the whole prediction matrix. Saham: succeeds iff the technical block comes back in the shape it went in. Then columns `>= n_teknikal` are the raw predictions and columns `< n_teknikal` are the inverse transform of the technical slice. |
| `ForecastEngine.Finish` | api/main.py:95-111 | Succeeds iff denormalisation succeeds, the result has no NaN and has a column 3. A NaN gives `ForecastNaN`; a NaN-free result without column 3 gives `NoCloseColumn`. Entry `i` is column 3 of denormalised row `i`, one entry per row, and is never NaN. |
| `ForecastEngine.Forecast` | api/main.py:42-111 | A successful forecast needs `future_days > 0`, and every close price it returns is a `Val`. |
| `ForecastEngine.RolloutNext` | api/main.py:71-73 | A successful iteration extends the run by the loop body's prediction: the list gains that row at its end and the window rolls it in. |
| `ForecastEngine.RolloutFailsAt` | api/main.py:61-93 | An iteration that raises decides the call: every longer run fails with that iteration's error. |
| `ForecastEngine.RolloutStaysFailed` | api/main.py:61-93 | Once an iteration raises, running longer gives the same error. |
| `ForecastEngine.SahamLoop` | api/main.py:61-74 | The saham loop (slice, scale, concatenate, predict, append, roll, overwrite) returns exactly `Rollout` of the saham branch. |
| `ForecastEngine.GoldLoop` | api/main.py:83-93 | The gold loop, with its NaN check before the append, returns exactly `Rollout` of the gold branch. |
| `ForecastEngine.DenormaliseAndClose` | api/main.py:95-111 | Batched inverse transform, in-place column write-back, NaN check and close column, equal to `Finish`. |
| `ForecastEngine.PredictFuturePrice` | api/main.py:42-111 | The whole function is equal to `Forecast`, so every property proved of `Forecast` holds of it. |
| `ForecastProperties.RolloutWindow` | api/main.py:61-93 | After `n > 0` iterations the seed had 30 rows. The window is `(seed + predictions)[n..]`: the last 30 rows of the seed and the `n` predictions taken together. |
| `ForecastProperties.RolloutPrefix` | api/main.py:72-91 | The predictions of a shorter run are a prefix of those of a longer one: the list only grows at its end. |
| `ForecastProperties.RolloutStep` | api/main.py:61-93 | Iteration `i` appends exactly what the loop body predicts from the window left by the first `i` iterations. |
| `ForecastProperties.RolloutPredictionAt` | api/main.py:61-93 | Autoregression: prediction `i` is the loop body applied to rows `i..i+29` of the seed followed by the predictions. |
| `ForecastProperties.GoldNaNStopsForecast` | api/main.py:86-89 | A gold prediction with a NaN at iteration `k < future_days` fails the call with `PredictionNaN`. Nothing is returned, whatever the inverse transform or any later prediction would be. |
| `ForecastProperties.GoldPredictionGuard` | api/main.py:83-89 | A gold iteration succeeds iff the prediction has the scaler's width and no NaN. A wrong width gives `ShapeMismatch`; a right-width prediction with a NaN gives `PredictionNaN`. A success is the model's own prediction, untransformed. |
| `ForecastProperties.SahamTickerChecksFirst` | api/main.py:45-50 | A missing or unknown ticker fails before the scaler or the model is used, whatever they are. |
| `ForecastProperties.SahamPredictionGuard` | api/main.py:61-69 | A saham iteration succeeds iff `n_teknikal <= n_total`, the window has 30 rows, the scaled block is 30 x `n_teknikal` and the model answers with `n_total` values. A success is the model applied to the scaled technical columns beside the unscaled one-hot columns. Every failure is `ShapeMismatch`. |
| `ForecastProperties.SahamInputColumns` | api/main.py:62-66 | The saham model input has the window's width. Columns `< n_teknikal` are the scaled technical columns; the one-hot columns enter unscaled in their own positions. |
| `ForecastProperties.SahamPassthroughNaNCaught` | api/main.py:99-108 | A NaN the model put in a one-hot column passes through denormalisation untouched and fails the call with `ForecastNaN`. |
| `ForecastProperties.ForecastLength` | api/main.py:61-111 | A successful forecast has exactly `future_days` close prices. For gold this needs an inverse transform that keeps the row count; saham checks the shape itself. |
| `ForecastProperties.ForecastIsCloseColumn` | api/main.py:95-111 | A loop error is the forecast's error. After a successful loop, the forecast succeeds iff the denormalised matrix exists, has no NaN and has a column 3, and then entry `i` is its row `i`, column 3. |
| `Arrays.RowHasNaN` | api/main.py:88 | `np.isnan(pred).any()` holds iff `NaN` occurs in the row. |
| `Arrays.HasNaN` | api/main.py:107 | `np.isnan(m).any()` is false iff every entry of every row is a number. |
| `Arrays.Slice` | api/main.py:61-62 | Python slicing with clamped bounds: `min(hi, len) - lo` entries when `lo` does not pass the clamped end, none otherwise, and entry `j` is entry `lo + j` of the row. |
| `Arrays.Columns` | api/main.py:61-62 | `m[:, lo:hi]` keeps the row count, and row `i` is the slice of row `i`. |
| `Arrays.HConcat` | api/main.py:65 | `np.concatenate([a, b], axis=1)` keeps the row count, and row `i` is row `i` of `a` followed by row `i` of `b`. |
| `Arrays.Roll` | api/main.py:73 | `np.roll(m, -1, axis=0)`: row `i` of the result is row `(i+1) mod n` of the input. |
| `Arrays.ReplaceColumns` | api/main.py:101 | `m[:, :k] = block` keeps every row's length. The first `k` columns come from the block and the rest keep their values. |
| `Arrays.ColumnOf` | api/main.py:110 | `m[:, c]` has one entry per row, and entry `i` is row `i`'s column `c`. |
| `Returns.EvaluateReturn` | api/main.py:162-167 | Fails (`InvalidPrice`) iff the first price is 0 or NaN or the last price is NaN. Otherwise: return% times first price = (last - first) * 100, nominal * 100 = principal * return%, total = principal + nominal, and `meetsTarget` iff return% >= target. |
| `Returns.Evaluate` | api/main.py:158-167 | An empty series fails (`EmptyForecast`). Otherwise it fails iff the first price is 0 or NaN or the last is NaN; for a NaN-free series, only a zero first price fails. The summary's prices are the first and last entries, the first is non-zero, and return % * first = (last - first) * 100, nominal * 100 = principal * return %, total = principal + nominal, and the target is met iff return % >= target. |
| `Returns.Recommendation` | api/main.py:178 | "Layak" iff the target is met, "Tidak layak" iff it is not. |
| `Returns.TotalFollowsPrice` | api/main.py:164-166 | total * first price = principal * last price: the principal grows with the price. |
| `Returns.FlatForecastKeepsPrincipal` | api/main.py:164-166 | Equal non-zero first and last prices give return 0, nominal 0 and total = principal. |
| `Returns.MeetsTargetIffPriceReached` | api/main.py:167 | For a positive first price, the target is met iff last * 100 >= first * (100 + target). Equality counts as met. |
| `Returns.TwentyPercentExample` | api/main.py:164-167 | Principal 10,000,000 with prices 100 then 120 gives 20%, 2,000,000 and 12,000,000. That meets a 10% target and misses a 25% one. |
| `Artifacts.LastRows` | api/main.py:32 | `[-30:]` keeps `min(len, 30)` rows, and they are a suffix of the stored sequence. |
| `Artifacts.GoldScalers` | api/main.py:37 | The gold scaler sits alone under the key "gold". |
| `Artifacts.LoadedSaham` | api/main.py:31-35 | The saham artifacts keep the model, the ticker-to-scaler map as it was stored, and the column count. The seed is the last `min(len, 30)` rows of the stored sequence. |
| `Artifacts.LoadedGold` | api/main.py:31-37 | The gold artifacts keep the model and the column count. The one scaler sits alone under "gold", and the seed is the last `min(len, 30)` rows of the stored sequence. |
| `Artifacts.LastRowsIdempotent` | api/main.py:32 | Cutting twice is cutting once. |
| `Artifacts.GoldArtifactsSelectGoldPath` | api/main.py:32-37 | Loaded gold artifacts always find their scaler. They reach the gold loop iff at least 30 rows were stored with the scaler's width; otherwise `ShapeMismatch`. |
| `Service.Validate` | api/main.py:140-145 | Accepts iff the instrument is "gold" or "saham", modal, target_return and duration are all > 0, and saham has a non-empty ticker. Checks run in source order: unknown instrument first, then non-positive values, then `TickerRequired` for a saham request without a ticker. The accepted request carries the parsed instrument and the inputs unchanged. |
| `Service.InvalidRequestRejectedFirst` | api/main.py:140-147 | An invalid request is answered with its validation error whatever the artifacts and the model are: nothing is loaded or predicted. |
| `Service.TickerGiven` | api/main.py:144 | Python truthiness of the ticker: present and not the empty string. |
| `Service.Handle` | api/main.py:131-180 | A request fails with `BadRequest` iff validation rejects it. A response names the requested instrument, and its recommendation is "Layak" iff its summary meets the target and "Tidak layak" iff it does not. |
| `Service.ResponseRecommendation` | api/main.py:158-178 | In every response: the first and last prices are the first and last entries of the successful forecast; return % * first = (last - first) * 100; nominal * 100 = principal * return %; total * first = principal * last; and the recommendation is "Layak" iff return % >= target. |
| `Service.ReturnFailsOnlyOnZeroBase` | api/main.py:162-163 | After a valid request and a successful forecast, the endpoint fails iff the series is empty or starts at 0. Its own NaN check can never fire. |

## Left out

- Flask routing, JSON parsing, HTTP status codes and error message texts: web plumbing. The `.lower()` of the instrument name and the field defaults (modal 0, target_return 0, duration 180, ticker "") belong to parsing; `Service.Validate` takes the parsed values.
- Reading the model, the scalers and the sequence from disk (`load_model`, `pickle.load`, `np.load`, path choice) and the `FileNotFoundError` wrapping of a failed load: I/O. `Service.Handle` takes loading as a parameter.
- Keras `predict` and the scalers' `transform`/`inverse_transform`: foreign numerics, modelled as opaque total functions. The scaler's own column-count check is modelled only where it can fire, the saham branch's `n_teknikal <= n_total`.
- `astype(np.float32)` and IEEE float semantics: values are reals with an explicit `NaN`. A NaN `modal` or `target_return`, which passes the `<= 0` checks in Python, cannot be expressed.
- `round(..., 2)` in the response and `plot_price` (matplotlib/base64 rendering).
- The three-dimensional seed case of the `len(shape) == 2` branches: the seed is a sequence of rows. `cols` is a separate parameter, and the model does not require every seed row to have `cols` entries, so it also accepts ragged seeds that numpy cannot hold. On such a seed the saham body checks the width of the prediction but not the width of the model input that `reshape(1, 30, n_total)` enforces.
- `ForecastEngine.SelectPath`: the gold reshape to `(30, n_features)` is modelled as accepting exactly a 30-row seed of width `n_features`. Numpy would also reinterpret any seed with `30 * n_features` elements.
- `ForecastEngine.Denormalise`: numpy broadcasting in the saham write-back `predictions_arr[:, :n_teknikal] = ...`, which would accept a single row, is not modelled. An inverse block of another shape is an error.
- `ForecastEngine.NextPrediction`: a zero-column saham seed, which numpy reshapes to `(1, 30, 0)` whatever its row count, is treated like any other window and needs 30 rows.
- How many times the model and `inverse_transform` are called: the model is pure. "Never reached" is stated as independence of the result from those functions (`ForecastProperties.GoldNaNStopsForecast`, `ForecastProperties.SahamTickerChecksFirst`, `Service.InvalidRequestRejectedFirst`).
- The data download scripts (`forcasting-saham/scraping_saham_ds.py`, `forcasting-gold/scraping_emas_ds.py`) and the HTTP client script `test/test.py`: network I/O, pandas and CSV writing, and no checkable assertions.
