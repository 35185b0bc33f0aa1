/**
 * The plain data steps of artifact loading: the seed sequence is cut to its
 * last 30 rows, and the single gold scaler is wrapped in a map under the key
 * "gold" so that both instruments hand the loop a map of scalers. Reading the
 * model, the scaler and the sequence from disk is not modelled: the loaded
 * values are parameters.
 */
module Artifacts {
  import opened Arrays
  import opened ForecastEngine
  import opened Wrappers

  /** What loading yields for one instrument: the model, its scalers and the seed window. */
  datatype Loaded = Loaded(model: Matrix -> Row, scalerObj: map<string, Scaler>, lastSequence: Matrix, cols: nat)

  /** `last_sequence[-30:]` */
  function LastRows(s: Matrix): (r: Matrix)
    ensures |r| == Min(|s|, WindowLength)
    ensures s == s[..|s| - |r|] + r
  {
    if |s| <= WindowLength then s else s[|s| - WindowLength..]
  }

  /** `{"gold": scaler}` */
  function GoldScalers(s: Scaler): (m: map<string, Scaler>)
    ensures m.Keys == {"gold"} && m["gold"] == s
  {
    map["gold" := s]
  }

  /** The saham artifacts: the pickled ticker map is used as it is. */
  function LoadedSaham(model: Matrix -> Row, tickerScalers: map<string, Scaler>, raw: Matrix, cols: nat): (a: Loaded)
    ensures a.model == model && a.scalerObj == tickerScalers && a.cols == cols
    ensures |a.lastSequence| == Min(|raw|, WindowLength)
    ensures raw == raw[..|raw| - |a.lastSequence|] + a.lastSequence
  {
    Loaded(model, tickerScalers, LastRows(raw), cols)
  }

  /** The gold artifacts: the one scaler is wrapped under "gold". */
  function LoadedGold(model: Matrix -> Row, scaler: Scaler, raw: Matrix, cols: nat): (a: Loaded)
    ensures a.model == model && a.cols == cols
    ensures a.scalerObj.Keys == {"gold"} && a.scalerObj["gold"] == scaler
    ensures |a.lastSequence| == Min(|raw|, WindowLength)
    ensures raw == raw[..|raw| - |a.lastSequence|] + a.lastSequence
  {
    Loaded(model, GoldScalers(scaler), LastRows(raw), cols)
  }

  /** Cutting an already cut sequence changes nothing. */
  lemma LastRowsIdempotent(s: Matrix)
    ensures LastRows(LastRows(s)) == LastRows(s)
  {
  }

  /**
   * Loaded gold artifacts reach the gold loop exactly when at least 30 rows
   * were stored and their width is the scaler's; the scaler lookup never fails.
   */
  lemma GoldArtifactsSelectGoldPath(model: Matrix -> Row, scaler: Scaler, raw: Matrix, cols: nat, ticker: Option<string>)
    ensures var a := LoadedGold(model, scaler, raw, cols);
            var r := SelectPath(a.scalerObj, Gold, ticker, a.lastSequence, a.cols);
            (r.Ok? <==> |raw| >= WindowLength && cols == scaler.nFeaturesIn) &&
            (r.Ok? ==> r.value == GoldPath(scaler)) &&
            (r.Err? ==> r.error == ShapeMismatch)
  {
  }
}
