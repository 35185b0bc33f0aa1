/**
 * The return arithmetic of the prediction endpoint: from the first and last
 * forecast close price, the principal ("modal") and the target return, the
 * percentage return, the nominal return, the final amount and whether the
 * target is met. Floats are modelled as reals with an explicit NaN.
 */
module Returns {
  import opened Wrappers
  import opened Arrays

  datatype ReturnError =
    | EmptyForecast   // `predicted_prices[0]` on an empty series
    | InvalidPrice    // the first price is 0 or NaN, or the last is NaN

  /** harga_awal, harga_akhir, persentase_return, nominal_return, total_uang, meets_target */
  datatype Summary = Summary(initialPrice: real, finalPrice: real, returnPct: real,
                             nominalReturn: real, total: real, meetsTarget: bool)

  /** The degenerate-base guard, then the three formulas and the non-strict target test. */
  function EvaluateReturn(initial: Num, final: Num, principal: real, targetReturn: real): (r: Result<Summary, ReturnError>)
    ensures r.Err? <==> initial == Val(0.0) || initial.NaN? || final.NaN?
    ensures r.Err? ==> r.error == InvalidPrice
    ensures r.Ok? ==> r.value.initialPrice == initial.v && r.value.finalPrice == final.v
    ensures r.Ok? ==> r.value.returnPct * initial.v == (final.v - initial.v) * 100.0
    ensures r.Ok? ==> r.value.nominalReturn * 100.0 == principal * r.value.returnPct
    ensures r.Ok? ==> r.value.total == principal + r.value.nominalReturn
    ensures r.Ok? ==> (r.value.meetsTarget <==> r.value.returnPct >= targetReturn)
  {
    if initial == Val(0.0) || initial.NaN? || final.NaN? then Err(InvalidPrice)
    else
      var returnPct := (final.v - initial.v) / initial.v * 100.0;
      var nominalReturn := principal * (returnPct / 100.0);
      var total := principal + nominalReturn;
      Ok(Summary(initial.v, final.v, returnPct, nominalReturn, total, returnPct >= targetReturn))
  }

  /** The first and last close price of the forecast series. */
  function Evaluate(prices: seq<Num>, principal: real, targetReturn: real): (r: Result<Summary, ReturnError>)
    ensures |prices| == 0 ==> r == Err(EmptyForecast)
    ensures r.Err? <==> |prices| == 0 || prices[0] == Val(0.0) || prices[0].NaN? || prices[|prices| - 1].NaN?
    ensures |prices| > 0 && (forall i :: 0 <= i < |prices| ==> prices[i].Val?) ==>
              (r.Err? <==> prices[0] == Val(0.0))
    ensures r.Ok? ==> |prices| > 0 && prices[0] == Val(r.value.initialPrice)
                      && prices[|prices| - 1] == Val(r.value.finalPrice) && r.value.initialPrice != 0.0
    ensures r.Ok? ==> r.value.returnPct * r.value.initialPrice == (r.value.finalPrice - r.value.initialPrice) * 100.0
    ensures r.Ok? ==> r.value.nominalReturn * 100.0 == principal * r.value.returnPct
    ensures r.Ok? ==> r.value.total == principal + r.value.nominalReturn
    ensures r.Ok? ==> (r.value.meetsTarget <==> r.value.returnPct >= targetReturn)
  {
    if |prices| == 0 then Err(EmptyForecast)
    else EvaluateReturn(prices[0], prices[|prices| - 1], principal, targetReturn)
  }

  /** "rekomendasi" of the response. */
  function Recommendation(meetsTarget: bool): (r: string)
    ensures r == "Layak" <==> meetsTarget
    ensures r == "Tidak layak" <==> !meetsTarget
  {
    if meetsTarget then "Layak" else "Tidak layak"
  }

  /** The final amount is the principal scaled by the growth of the price. */
  lemma TotalFollowsPrice(initial: Num, final: Num, principal: real, targetReturn: real)
    requires EvaluateReturn(initial, final, principal, targetReturn).Ok?
    ensures EvaluateReturn(initial, final, principal, targetReturn).value.total * initial.v == principal * final.v
  {
    var s := EvaluateReturn(initial, final, principal, targetReturn).value;
    var a, b := initial.v, final.v;
    calc {
      s.total * a;
      (principal + s.nominalReturn) * a;
      principal * a + s.nominalReturn * a;
      { assert s.nominalReturn * 100.0 * a == principal * (s.returnPct * a); }
      principal * a + principal * (b - a);
      principal * b;
    }
  }

  /** A flat forecast returns exactly the principal. */
  lemma FlatForecastKeepsPrincipal(price: Num, principal: real, targetReturn: real)
    requires price.Val? && price.v != 0.0
    ensures EvaluateReturn(price, price, principal, targetReturn).Ok?
    ensures var s := EvaluateReturn(price, price, principal, targetReturn).value;
            s.returnPct == 0.0 && s.nominalReturn == 0.0 && s.total == principal
  {
  }

  /**
   * For a positive starting price, the target is met exactly when the final
   * price is at least the starting price grown by the target percentage.
   */
  lemma MeetsTargetIffPriceReached(initial: Num, final: Num, principal: real, targetReturn: real)
    requires initial.Val? && initial.v > 0.0 && final.Val?
    ensures EvaluateReturn(initial, final, principal, targetReturn).Ok?
    ensures EvaluateReturn(initial, final, principal, targetReturn).value.meetsTarget
            <==> final.v * 100.0 >= initial.v * (100.0 + targetReturn)
  {
    var s := EvaluateReturn(initial, final, principal, targetReturn).value;
    var a := initial.v;
    assert s.returnPct * a == (final.v - a) * 100.0;
    if s.returnPct >= targetReturn {
      assert s.returnPct * a >= targetReturn * a;
    } else {
      assert s.returnPct * a < targetReturn * a;
    }
  }

  /** A 20% rise on a principal of 10,000,000 meets a 10% target and misses a 25% one. */
  lemma TwentyPercentExample()
    ensures EvaluateReturn(Val(100.0), Val(120.0), 10000000.0, 10.0)
            == Ok(Summary(100.0, 120.0, 20.0, 2000000.0, 12000000.0, true))
    ensures EvaluateReturn(Val(100.0), Val(120.0), 10000000.0, 25.0)
            == Ok(Summary(100.0, 120.0, 20.0, 2000000.0, 12000000.0, false))
  {
  }
}
