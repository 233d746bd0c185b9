/** The preview-quote hook: when a quote may be requested, the request it sends, how
    provider errors surface, which route is chosen, and what the hook exposes. */
module Quote {
  import opened Wrappers
  import opened Decimal
  import opened Api

  const DefaultProviders: seq<string> := ["THORCHAIN", "MAYACHAIN", "ONEINCH", "NEAR"]

  /** The hook's parameters; `None` is an omitted (`undefined`) parameter. */
  datatype QuoteParams = QuoteParams(
    sellAsset: Option<string>,
    buyAsset: Option<string>,
    sellAmount: string,
    slippage: string,
    sourceAddress: Option<string>,
    destinationAddress: Option<string>,
    providers: Option<seq<string>>,
    dry: Option<bool>)

  /** Destructuring defaults: the four providers and dry mode. */
  function Providers(p: QuoteParams): (r: seq<string>)
    ensures p.providers.None? ==> r == DefaultProviders
    ensures p.providers.Some? ==> r == p.providers.value
  {
    if p.providers.Some? then p.providers.value else DefaultProviders
  }

  predicate Dry(p: QuoteParams)
  {
    p.dry.None? || p.dry.value
  }

  /** `isEnabled`: both assets, a non-empty amount whose `Number` is positive, and either
      dry mode or a destination. */
  predicate QuoteEnabled(p: QuoteParams)
  {
    Truthy(p.sellAsset) && Truthy(p.buyAsset) && p.sellAmount != "" && IsPositiveNumber(p.sellAmount) &&
    (Dry(p) || Truthy(p.destinationAddress))
  }

  /** The request the query function sends, or `None` where it returns `null` without
      calling the API. */
  function QueryRequest(p: QuoteParams): (r: Option<QuoteRequest>)
    ensures r.Some? <==> Truthy(p.sellAsset) && Truthy(p.buyAsset) && p.sellAmount != "" && (Dry(p) || Truthy(p.destinationAddress))
    ensures r.Some? ==> (r.value.sellAsset == p.sellAsset.value && r.value.buyAsset == p.buyAsset.value &&
                         r.value.sellAmount == p.sellAmount && r.value.destinationAddress == p.destinationAddress &&
                         r.value.sourceAddress == p.sourceAddress && r.value.refundAddress.None? &&
                         r.value.slippage == p.slippage &&
                         r.value.dry == Dry(p) && |r.value.providers| == |Providers(p)| &&
                         forall i :: 0 <= i < |Providers(p)| ==> r.value.providers[i] == Some(Providers(p)[i]))
  {
    if !Truthy(p.sellAsset) || !Truthy(p.buyAsset) || p.sellAmount == "" then None
    else if !Dry(p) && !Truthy(p.destinationAddress) then None
    else
      var providers := Providers(p);
      Some(QuoteRequest(p.sellAsset.value, p.buyAsset.value, p.sellAmount, p.destinationAddress,
        p.sourceAddress, None, p.slippage, seq(|providers|, i requires 0 <= i < |providers| => Some(providers[i])), Dry(p)))
  }

  /** Whenever the query is enabled, running it calls the API. */
  lemma EnabledQueryRequests(p: QuoteParams)
    requires QuoteEnabled(p)
    ensures QueryRequest(p).Some?
    ensures !Dry(p) ==> QueryRequest(p).value.destinationAddress.Some?
  {
  }

  /** The error a response is turned into: only when there are no routes and some provider
      reported an error; the first error's text when it is a string, else "Quote error". */
  function ProviderErrorMessage(response: QuoteResponse): (r: Option<string>)
    ensures r.Some? <==> |response.routes| == 0 && response.providerErrors.Some? && |response.providerErrors.value| > 0
    ensures r.Some? ==> var e := response.providerErrors.value[0];
      r.value == (if e.error.Some? then e.error.value else "Quote error")
  {
    if |response.routes| == 0 && response.providerErrors.Some? && |response.providerErrors.value| > 0 then
      Some(ProviderErrorMessageText(response.providerErrors.value[0]))
    else None
  }

  /** `typeof error === 'string' ? error : 'Quote error'`. */
  function ProviderErrorMessageText(e: ProviderError): string
  {
    if e.error.Some? then e.error.value else "Quote error"
  }

  // ---------------------------------------------------------------------------
  // Best route: `routes.reduce((acc, r) => !acc || Number(r) > Number(acc) ? r : acc, null)`

  /** `Number(route.expectedBuyAmount)`, `None` for `NaN`. */
  function Amount(route: QuoteRoute): (r: Option<real>)
    ensures r.Some? <==> JsNumber(route.expectedBuyAmount).Some?
  {
    match JsNumber(route.expectedBuyAmount)
    case None => None
    case Some(d) => Some(Value(d))
  }

  /** `>` on numbers: false when either side is `NaN`. */
  predicate Greater(x: Option<real>, y: Option<real>)
  {
    x.Some? && y.Some? && x.value > y.value
  }

  lemma AmountComparison(a: QuoteRoute, b: QuoteRoute)
    ensures Greater(Amount(a), Amount(b)) <==> NumberGreater(a.expectedBuyAmount, b.expectedBuyAmount)
  {
  }

  /** The index the reduce ends on, for amounts read by `amount`: each route replaces the
      accumulator only when its amount is greater. */
  function BestIndexBy(routes: seq<QuoteRoute>, amount: QuoteRoute -> Option<real>): (k: nat)
    requires |routes| > 0
    ensures k < |routes|
  {
    if |routes| == 1 then 0
    else
      var init := routes[..|routes| - 1];
      var k := BestIndexBy(init, amount);
      if Greater(amount(routes[|routes| - 1]), amount(init[k])) then |routes| - 1 else k
  }

  function BestRoute(routes: seq<QuoteRoute>): (r: Option<QuoteRoute>)
    ensures r.Some? <==> |routes| > 0
    ensures r.Some? ==> r.value in routes
  {
    if |routes| == 0 then None else Some(routes[BestIndexBy(routes, Amount)])
  }

  /** No route has a greater amount than the chosen one, and the chosen one's amount is
      greater than that of every numeric route before it: the best route is the first
      route with the largest amount. */
  lemma {:induction false} BestIsFirstMaximumBy(routes: seq<QuoteRoute>, amount: QuoteRoute -> Option<real>)
    requires |routes| > 0
    ensures var k := BestIndexBy(routes, amount);
      (forall i :: 0 <= i < |routes| ==> !Greater(amount(routes[i]), amount(routes[k]))) &&
      (forall i :: 0 <= i < k ==> amount(routes[i]).None? || Greater(amount(routes[k]), amount(routes[i])))
  {
    if |routes| > 1 {
      var init := routes[..|routes| - 1];
      BestIsFirstMaximumBy(init, amount);
      var k := BestIndexBy(init, amount);
      var n := |routes| - 1;
      assert init[k] == routes[k];
      assert forall i :: 0 <= i < n ==> init[i] == routes[i];
    }
  }

  lemma BestIsFirstMaximum(routes: seq<QuoteRoute>)
    requires |routes| > 0
    ensures var best := BestRoute(routes).value;
      (forall r :: r in routes ==> !NumberGreater(r.expectedBuyAmount, best.expectedBuyAmount)) &&
      (exists k :: 0 <= k < |routes| && routes[k] == best &&
         forall i :: 0 <= i < k ==> Amount(routes[i]).None? || NumberGreater(best.expectedBuyAmount, routes[i].expectedBuyAmount))
  {
    BestIsFirstMaximumBy(routes, Amount);
    var k := BestIndexBy(routes, Amount);
    forall r | r in routes ensures !NumberGreater(r.expectedBuyAmount, routes[k].expectedBuyAmount) {
      var i :| 0 <= i < |routes| && routes[i] == r;
      AmountComparison(r, routes[k]);
    }
    forall i | 0 <= i < k ensures Amount(routes[i]).None? || NumberGreater(routes[k].expectedBuyAmount, routes[i].expectedBuyAmount) {
      AmountComparison(routes[k], routes[i]);
    }
    assert routes[k] == BestRoute(routes).value;
  }

  /** A first route whose amount is not a number is never replaced: `NaN` compares false. */
  lemma {:induction false} NaNFirstRouteWins(routes: seq<QuoteRoute>)
    requires |routes| > 0 && Amount(routes[0]).None?
    ensures BestRoute(routes) == Some(routes[0])
  {
    NaNStays(routes, Amount);
  }

  lemma {:induction false} NaNStays(routes: seq<QuoteRoute>, amount: QuoteRoute -> Option<real>)
    requires |routes| > 0 && amount(routes[0]).None?
    ensures BestIndexBy(routes, amount) == 0
  {
    if |routes| > 1 {
      var init := routes[..|routes| - 1];
      assert init[0] == routes[0];
      NaNStays(init, amount);
    }
  }

  // ---------------------------------------------------------------------------
  // The query and what the hook exposes

  datatype QueryData = QueryData(bestRoute: Option<QuoteRoute>, response: QuoteResponse)

  /** The settled query: the function returned `null`, threw, or returned data. */
  datatype QueryOutcome = Skipped | Failed(message: string) | Fetched(data: QueryData)

  /** One run of the query function, given the outcome of the API call. */
  function RunQuery(p: QuoteParams, response: Async<QuoteResponse>): (r: QueryOutcome)
    ensures QueryRequest(p).None? <==> r.Skipped?
    ensures QueryRequest(p).Some? && response.Threw? ==> r == Failed(response.message)
    ensures r.Failed? && response.Done? ==> ProviderErrorMessage(response.value) == Some(r.message)
    ensures r.Fetched? ==> (response.Done? && r.data.response == response.value &&
                            ProviderErrorMessage(response.value).None? && r.data.bestRoute == BestRoute(response.value.routes))
  {
    if QueryRequest(p).None? then Skipped
    else match response
      case Threw(m) => Failed(m)
      case Done(resp) =>
        match ProviderErrorMessage(resp)
        case Some(m) => Failed(m)
        case None => Fetched(QueryData(BestRoute(resp.routes), resp))
  }

  /** A response with routes always yields data, even if some providers failed. */
  lemma RoutesWinOverProviderErrors(p: QuoteParams, resp: QuoteResponse)
    requires QueryRequest(p).Some? && |resp.routes| > 0
    ensures RunQuery(p, Done(resp)).Fetched? && RunQuery(p, Done(resp)).data.bestRoute.Some?
  {
  }

  /** The hook's `quote`: undefined while loading, refetching or in error, else the best
      route of the last data (`data` is `None` before any result). */
  function ExposedQuote(isLoading: bool, isRefetching: bool, hasError: bool, data: Option<QueryOutcome>): (r: Option<QuoteRoute>)
    ensures isLoading || isRefetching || hasError ==> r.None?
    ensures r.Some? ==> data.Some? && data.value.Fetched? && data.value.data.bestRoute == r
  {
    if isLoading || isRefetching || hasError then None
    else match data
      case Some(Fetched(d)) => d.bestRoute
      case _ => None
  }
}
