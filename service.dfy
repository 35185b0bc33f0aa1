/**
 * The prediction endpoint without its HTTP layer: validate the request, load
 * the artifacts of the instrument, forecast, and turn the first and last close
 * price into a return summary and a recommendation.
 */
module Service {
  import opened Wrappers
  import opened Arrays
  import opened ForecastEngine
  import opened Returns
  import opened Artifacts

  const AllowedInstruments: seq<string> := ["gold", "saham"]

  datatype RequestError =
    | UnknownInstrument(name: string)
    | NonPositiveArgument   // modal, target_return or duration is not above 0
    | TickerRequired        // saham without a ticker

  datatype ForecastRequest = ForecastRequest(instrument: Instrument, principal: real, targetReturn: real,
                                             duration: nat, ticker: Option<string>)

  /** Python truthiness of the ticker field: present (not null) and not empty. */
  predicate TickerGiven(ticker: Option<string>): (r: bool)
    ensures r <==> ticker != None && ticker != Some("")
  {
    ticker.Some? && |ticker.value| > 0
  }

  /** The three checks of the endpoint, in order. */
  function Validate(instrument: string, principal: real, targetReturn: real, duration: int,
                    ticker: Option<string>): (r: Result<ForecastRequest, RequestError>)
    ensures r.Ok? <==> instrument in AllowedInstruments && principal > 0.0 && targetReturn > 0.0
                       && duration > 0 && (instrument == "saham" ==> TickerGiven(ticker))
    ensures instrument !in AllowedInstruments ==> r == Err(UnknownInstrument(instrument))
    ensures instrument in AllowedInstruments && !(principal > 0.0 && targetReturn > 0.0 && duration > 0) ==>
              r == Err(NonPositiveArgument)
    ensures instrument == "saham" && principal > 0.0 && targetReturn > 0.0 && duration > 0 && !TickerGiven(ticker) ==>
              r == Err(TickerRequired)
    ensures r.Ok? ==> r.value == ForecastRequest(if instrument == "saham" then Saham else Gold,
                                                 principal, targetReturn, duration, ticker)
  {
    if instrument !in AllowedInstruments then Err(UnknownInstrument(instrument))
    else if principal <= 0.0 || targetReturn <= 0.0 || duration <= 0 then Err(NonPositiveArgument)
    else if instrument == "saham" && !TickerGiven(ticker) then Err(TickerRequired)
    else Ok(ForecastRequest(if instrument == "gold" then Gold else Saham, principal, targetReturn, duration, ticker))
  }

  datatype Response = Response(instrument: Instrument, summary: Summary, recommendation: string)

  datatype ServiceError =
    | BadRequest(reason: RequestError)
    | ForecastFailed(cause: Error)
    | ReturnFailed(problem: ReturnError)

  /**
   * Validate, load, forecast, evaluate. `load` stands for reading the
   * instrument's model, scaler and sequence from disk.
   */
  function Handle(instrument: string, principal: real, targetReturn: real, duration: int, ticker: Option<string>,
                  load: Instrument -> Loaded): (r: Result<Response, ServiceError>)
    ensures r.Err? && r.error.BadRequest? <==> Validate(instrument, principal, targetReturn, duration, ticker).Err?
    ensures r.Ok? ==> r.value.instrument == (if instrument == "saham" then Saham else Gold)
    ensures r.Ok? ==> (r.value.recommendation == "Layak" <==> r.value.summary.meetsTarget)
    ensures r.Ok? ==> (r.value.recommendation == "Tidak layak" <==> !r.value.summary.meetsTarget)
  {
    match Validate(instrument, principal, targetReturn, duration, ticker)
    case Err(e) => Err(BadRequest(e))
    case Ok(req) =>
      var a := load(req.instrument);
      match Forecast(a.model, a.lastSequence, a.cols, a.scalerObj, req.instrument, req.ticker, req.duration)
      case Err(e) => Err(ForecastFailed(e))
      case Ok(prices) =>
        match Evaluate(prices, req.principal, req.targetReturn)
        case Err(e) => Err(ReturnFailed(e))
        case Ok(s) => Ok(Response(req.instrument, s, Recommendation(s.meetsTarget)))
  }

  /** An invalid request is rejected whatever the artifacts are: nothing is loaded or predicted. */
  lemma InvalidRequestRejectedFirst(instrument: string, principal: real, targetReturn: real, duration: int,
                                    ticker: Option<string>, load: Instrument -> Loaded)
    requires Validate(instrument, principal, targetReturn, duration, ticker).Err?
    ensures Handle(instrument, principal, targetReturn, duration, ticker, load)
            == Err(BadRequest(Validate(instrument, principal, targetReturn, duration, ticker).error))
  {
  }

  /**
   * A response recommends "Layak" exactly when the forecast return reaches the
   * requested target, and its total is the principal grown by the forecast
   * price change.
   */
  lemma ResponseRecommendation(instrument: string, principal: real, targetReturn: real, duration: int,
                               ticker: Option<string>, load: Instrument -> Loaded)
    requires Handle(instrument, principal, targetReturn, duration, ticker, load).Ok?
    ensures var resp := Handle(instrument, principal, targetReturn, duration, ticker, load).value;
            (resp.recommendation == "Layak" <==> resp.summary.returnPct >= targetReturn) &&
            resp.summary.total * resp.summary.initialPrice == principal * resp.summary.finalPrice
    ensures var resp := Handle(instrument, principal, targetReturn, duration, ticker, load).value;
            var a := load(if instrument == "saham" then Saham else Gold);
            var out := Forecast(a.model, a.lastSequence, a.cols, a.scalerObj, resp.instrument, ticker, duration);
            out.Ok? && |out.value| > 0 && out.value[0] == Val(resp.summary.initialPrice) &&
            out.value[|out.value| - 1] == Val(resp.summary.finalPrice)
    ensures var resp := Handle(instrument, principal, targetReturn, duration, ticker, load).value;
            resp.summary.returnPct * resp.summary.initialPrice == (resp.summary.finalPrice - resp.summary.initialPrice) * 100.0 &&
            resp.summary.nominalReturn * 100.0 == principal * resp.summary.returnPct
  {
    var req := Validate(instrument, principal, targetReturn, duration, ticker).value;
    var a := load(req.instrument);
    var prices := Forecast(a.model, a.lastSequence, a.cols, a.scalerObj, req.instrument, req.ticker, req.duration).value;
    var s := Evaluate(prices, req.principal, req.targetReturn).value;
    assert Handle(instrument, principal, targetReturn, duration, ticker, load).value
           == Response(req.instrument, s, Recommendation(s.meetsTarget));
    TotalFollowsPrice(prices[0], prices[|prices| - 1], principal, targetReturn);
  }

  /**
   * After a successful forecast only a zero first price (or an empty series)
   * can fail the return computation: the forecast already excludes NaN, so the
   * endpoint's own NaN check never fires.
   */
  lemma ReturnFailsOnlyOnZeroBase(instrument: string, principal: real, targetReturn: real, duration: int,
                                  ticker: Option<string>, load: Instrument -> Loaded)
    requires Validate(instrument, principal, targetReturn, duration, ticker).Ok?
    requires var req := Validate(instrument, principal, targetReturn, duration, ticker).value;
             var a := load(req.instrument);
             Forecast(a.model, a.lastSequence, a.cols, a.scalerObj, req.instrument, req.ticker, req.duration).Ok?
    ensures var req := Validate(instrument, principal, targetReturn, duration, ticker).value;
            var a := load(req.instrument);
            var prices := Forecast(a.model, a.lastSequence, a.cols, a.scalerObj, req.instrument, req.ticker, req.duration).value;
            Handle(instrument, principal, targetReturn, duration, ticker, load).Err? <==>
              |prices| == 0 || prices[0] == Val(0.0)
  {
  }
}
