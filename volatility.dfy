/** The volatility basket: the VIX level (FRED, falling back to Yahoo), the
    stock's beta against the S&P 500, its historical volatility and an
    at-the-money implied volatility, routed into a SWOT summary. */
module Volatility {
  import opened Wrappers
  import opened Swot
  import opened Macro

  /** Where a VIX quote came from; a FRED quote carries the date of the
      newest observation. */
  datatype VixSource = FromFred(date: string) | FromYahoo

  datatype VixQuote = VixQuote(value: real, previousClose: real, source: VixSource)

  /** The previous close of `fetch_vix_from_fred`: the second observation's
      value unless it is ".", the current value otherwise; `None` when that
      value is not a number, which makes the whole fetch fail. */
  function FredPreviousClose(obs: seq<Observation>, current: real): (r: Option<real>)
    ensures |obs| <= 1 || obs[1].value.Dot? ==> r == Some(current)
    ensures |obs| > 1 && obs[1].value.Numeral? ==> r == Some(obs[1].value.x)
    ensures r.None? <==> |obs| > 1 && (obs[1].value.Missing? || obs[1].value.Garbage?)
  {
    if |obs| > 1 && !obs[1].value.Dot? then
      if obs[1].value.Numeral? then Some(obs[1].value.x) else None
    else Some(current)
  }

  /** `fetch_vix_from_fred`: nothing without a key, after a failed request,
      or when no usable observation holds a number. */
  function FredVixOf(hasKey: bool, response: Result<seq<Observation>, string>): Option<VixQuote> {
    if !hasKey || response.Err? then None
    else
      var obs := response.value;
      match FirstUsable(obs, 0)
      case None => None
      case Some(k) =>
        if obs[k].value.Garbage? then None
        else
          var current := obs[k].value.x;
          match FredPreviousClose(obs, current)
          case None => None
          case Some(previous) => Some(VixQuote(current, previous, FromFred(obs[0].date)))
  }

  /** The loop of `fetch_vix_from_fred` that stops at the first usable
      observation. */
  method FredVix(hasKey: bool, response: Result<seq<Observation>, string>) returns (r: Option<VixQuote>)
    ensures r == FredVixOf(hasKey, response)
  {
    if !hasKey || response.Err? {
      return None;
    }
    var obs := response.value;
    if |obs| == 0 {
      return None;
    }
    var k := 0;
    while k < |obs|
      invariant 0 <= k <= |obs|
      invariant FirstUsable(obs, k) == FirstUsable(obs, 0)
    {
      if Usable(obs[k]) {
        break;
      }
      k := k + 1;
    }
    if k == |obs| || obs[k].value.Garbage? {
      return None;
    }
    var current := obs[k].value.x;
    var previous := current;
    if |obs| > 1 && !obs[1].value.Dot? {
      if !obs[1].value.Numeral? {
        return None;
      }
      previous := obs[1].value.x;
    }
    r := Some(VixQuote(current, previous, FromFred(obs[0].date)));
  }

  /** The value is the first usable observation, but the date is always the
      newest observation's, and the previous close is always the second
      observation's. */
  lemma FredVixReadsFirstUsable(hasKey: bool, obs: seq<Observation>)
    requires FredVixOf(hasKey, Ok(obs)).Some?
    ensures var q := FredVixOf(hasKey, Ok(obs)).value;
            exists k | 0 <= k < |obs| :: obs[k].value == Numeral(q.value) && forall j | 0 <= j < k :: !Usable(obs[j])
    ensures FredVixOf(hasKey, Ok(obs)).value.source == FromFred(obs[0].date)
    ensures var q := FredVixOf(hasKey, Ok(obs)).value;
            q.previousClose == q.value || (|obs| > 1 && obs[1].value == Numeral(q.previousClose))
  {
    var k := FirstUsable(obs, 0).value;
    assert forall j | 0 <= j < k :: !Usable(obs[j]);
  }

  /** The `meta` block of Yahoo's VIX chart: a missing price is 0 and a
      missing previous close is the price. */
  datatype YahooMeta = YahooMeta(regularMarketPrice: Option<real>, previousClose: Option<real>)

  function YahooVixOf(response: Result<YahooMeta, string>): (r: Option<VixQuote>)
    ensures r.Some? <==> response.Ok?
    ensures r.Some? ==> r.value.value == response.value.regularMarketPrice.GetOr(0.0)
    ensures r.Some? ==> r.value.previousClose == response.value.previousClose.GetOr(r.value.value)
  {
    match response
    case Err(_) => None
    case Ok(meta) =>
      var current := meta.regularMarketPrice.GetOr(0.0);
      Some(VixQuote(current, meta.previousClose.GetOr(current), FromYahoo))
  }

  /** The VIX bands of `fetch_vix`. */
  function VixImpact(v: real): (i: Impact)
    ensures i == Opportunity <==> v < 15.0
    ensures i == Neutral <==> 15.0 <= v < 20.0
    ensures i == Threat <==> 20.0 <= v < 30.0
    ensures i == SevereThreat <==> 30.0 <= v
  {
    if v < 15.0 then Opportunity
    else if v < 20.0 then Neutral
    else if v < 30.0 then Threat
    else SevereThreat
  }

  /** `change_pct`, 0 when the previous close is 0. */
  function ChangePct(current: real, previous: real): (c: real)
    ensures previous == 0.0 ==> c == 0.0
    ensures previous > 0.0 ==> (c > 0.0 <==> current > previous) && (c < 0.0 <==> current < previous)
  {
    if previous != 0.0 then
      var c := (current - previous) / previous * 100.0;
      assert previous > 0.0 ==> (c > 0.0 <==> current - previous > 0.0) && (c < 0.0 <==> current - previous < 0.0);
      c
    else 0.0
  }

  /** The VIX metric: its value, previous close, change, category and source. */
  datatype VixReading = VixReading(value: real, previousClose: real, changePct: real, impact: Impact, source: VixSource)

  const AllSourcesFailed := "All sources failed"

  function VixReadingOf(q: VixQuote): VixReading {
    VixReading(q.value, q.previousClose, ChangePct(q.value, q.previousClose), VixImpact(q.value), q.source)
  }

  /** `fetch_vix`: FRED if it yields a quote, Yahoo otherwise, and an error
      only when both fail. */
  function VixOf(hasKey: bool, fred: Result<seq<Observation>, string>, yahoo: Result<YahooMeta, string>): (r: Result<VixReading, string>)
    ensures FredVixOf(hasKey, fred).Some? ==> r == Ok(VixReadingOf(FredVixOf(hasKey, fred).value))
    ensures FredVixOf(hasKey, fred).None? && yahoo.Ok? ==> r == Ok(VixReadingOf(YahooVixOf(yahoo).value))
    ensures r == Err(AllSourcesFailed) <==> FredVixOf(hasKey, fred).None? && yahoo.Err?
    ensures r.Ok? ==> r.value.impact == VixImpact(r.value.value)
  {
    var fromFred := FredVixOf(hasKey, fred);
    var quote := if fromFred.Some? then fromFred else YahooVixOf(yahoo);
    if quote.None? then Err(AllSourcesFailed) else Ok(VixReadingOf(quote.value))
  }

  /** The fallback chain of `fetch_vix`, reassigning `vix_data`. */
  method FetchVix(hasKey: bool, fred: Result<seq<Observation>, string>, yahoo: Result<YahooMeta, string>)
    returns (r: Result<VixReading, string>)
    ensures r == VixOf(hasKey, fred, yahoo)
  {
    var vixData := FredVix(hasKey, fred);
    if vixData.None? {
      vixData := YahooVixOf(yahoo);
    }
    if vixData.None? {
      return Err(AllSourcesFailed);
    }
    r := Ok(VixReadingOf(vixData.value));
  }

  /** Without a FRED key the VIX comes from Yahoo. */
  lemma NoKeyUsesYahoo(fred: Result<seq<Observation>, string>, yahoo: Result<YahooMeta, string>)
    ensures VixOf(false, fred, yahoo).Ok? ==> VixOf(false, fred, yahoo).value.source == FromYahoo
    ensures VixOf(false, fred, yahoo).Err? <==> yahoo.Err?
  {
  }

  /** `[c for c in closes if c is not None]` */
  function NonNull(closes: seq<Option<real>>): (r: seq<real>)
    ensures |r| <= |closes|
    ensures forall x :: x in r <==> Some(x) in closes
    decreases |closes|
  {
    if |closes| == 0 then []
    else
      var init := NonNull(closes[..|closes| - 1]);
      assert forall y :: Some(y) in closes <==> Some(y) in closes[..|closes| - 1] || closes[|closes| - 1] == Some(y);
      match closes[|closes| - 1]
      case None => init
      case Some(c) => init + [c]
  }

  lemma {:induction false} NonNullAllPresent(closes: seq<Option<real>>)
    requires forall i | 0 <= i < |closes| :: closes[i].Some?
    ensures |NonNull(closes)| == |closes|
    decreases |closes|
  {
    if |closes| > 0 {
      NonNullAllPresent(closes[..|closes| - 1]);
    }
  }

  lemma {:induction false} NonNullAllMissing(closes: seq<Option<real>>)
    requires forall i | 0 <= i < |closes| :: closes[i].None?
    ensures NonNull(closes) == []
    decreases |closes|
  {
    if |closes| > 0 {
      NonNullAllMissing(closes[..|closes| - 1]);
    }
  }

  /** The last `k` elements, `xs[len(xs) - k:]`. */
  function Last(xs: seq<real>, k: nat): (r: seq<real>)
    requires k <= |xs|
    ensures |r| == k
    ensures r == xs[|xs| - k..]
  {
    xs[|xs| - k..]
  }

  /** Python's `xs[-k:]`, which for `k == 0` is the whole list. */
  function LastAsWritten(xs: seq<real>, k: nat): (r: seq<real>)
    requires k <= |xs|
    ensures k > 0 ==> r == Last(xs, k)
    ensures k == 0 ==> r == xs
  {
    if k == 0 then xs else xs[|xs| - k..]
  }

  const ZeroDivision := "float division by zero"
  const IndexOutOfRange := "list index out of range"
  const InsufficientData := "Insufficient data"

  /** The daily returns `(c[i] - c[i-1]) / c[i-1]`, failing on a zero close. */
  function ReturnsOf(c: seq<real>): (r: Result<seq<real>, string>)
    ensures r.Ok? <==> forall i | 0 <= i < |c| - 1 :: c[i] != 0.0
    ensures r.Err? ==> r.error == ZeroDivision
    ensures r.Ok? ==> |r.value| == if |c| == 0 then 0 else |c| - 1
    ensures r.Ok? ==> forall i | 0 <= i < |r.value| :: r.value[i] == (c[i + 1] - c[i]) / c[i]
    decreases |c|
  {
    if |c| < 2 then Ok([])
    else
      var init := c[..|c| - 1];
      match ReturnsOf(init)
      case Err(e) => Err(e)
      case Ok(r) =>
        if c[|c| - 2] == 0.0 then Err(ZeroDivision)
        else Ok(r + [(c[|c| - 1] - c[|c| - 2]) / c[|c| - 2]])
  }

  function Sum(xs: seq<real>): real
    decreases |xs|
  {
    if |xs| == 0 then 0.0 else Sum(xs[..|xs| - 1]) + xs[|xs| - 1]
  }

  /** `sum((xs[i] - mx) * (ys[i] - my) for i in range(n))` */
  function CrossSum(xs: seq<real>, mx: real, ys: seq<real>, my: real): real
    requires |xs| == |ys|
    decreases |xs|
  {
    if |xs| == 0 then 0.0
    else CrossSum(xs[..|xs| - 1], mx, ys[..|ys| - 1], my) + (xs[|xs| - 1] - mx) * (ys[|ys| - 1] - my)
  }

  /** Beta = Cov(stock, market) / Var(market), 1.0 when the variance is 0. */
  function BetaOf(stock: seq<real>, market: seq<real>): real
    requires |stock| == |market| >= 2
  {
    var n := |stock| as real;
    var meanStock := Sum(stock) / n;
    var meanMarket := Sum(market) / n;
    var covariance := CrossSum(stock, meanStock, market, meanMarket) / (n - 1.0);
    var variance := CrossSum(market, meanMarket, market, meanMarket) / (n - 1.0);
    if variance != 0.0 then covariance / variance else 1.0
  }

  /** A stock's beta against its own series is 1. */
  lemma BetaOfItself(rs: seq<real>)
    requires |rs| >= 2
    ensures BetaOf(rs, rs) == 1.0
  {
  }

  lemma {:induction false} SumZeros(xs: seq<real>)
    requires forall i | 0 <= i < |xs| :: xs[i] == 0.0
    ensures Sum(xs) == 0.0
    decreases |xs|
  {
    if |xs| > 0 {
      SumZeros(xs[..|xs| - 1]);
    }
  }

  lemma {:induction false} CrossSumZeros(xs: seq<real>, mx: real, ys: seq<real>)
    requires |xs| == |ys|
    requires forall i | 0 <= i < |ys| :: ys[i] == 0.0
    ensures CrossSum(xs, mx, ys, 0.0) == 0.0
    decreases |xs|
  {
    if |xs| > 0 {
      CrossSumZeros(xs[..|xs| - 1], mx, ys[..|ys| - 1]);
    }
  }

  /** A flat market has no variance, and beta falls back to 1.0. */
  lemma BetaFlatMarket(stock: seq<real>, market: seq<real>)
    requires |stock| == |market| >= 2
    requires forall i | 0 <= i < |market| :: market[i] == 0.0
    ensures BetaOf(stock, market) == 1.0
  {
    SumZeros(market);
    CrossSumZeros(market, 0.0, market);
  }

  /** The beta bands of `fetch_beta`. */
  function BetaImpact(beta: real): (i: Impact)
    ensures i == Strength <==> beta < 0.8
    ensures i == Neutral <==> 0.8 <= beta < 1.2
    ensures i == Weakness <==> 1.2 <= beta
  {
    if beta < 0.8 then Strength
    else if beta < 1.2 then Neutral
    else if beta < 1.5 then Weakness
    else Weakness
  }

  /** The beta computed from two aligned close series. */
  function BetaFromCloses(stock: seq<real>, market: seq<real>): (r: Result<real, string>)
    requires |stock| == |market|
  {
    if |stock| < 30 then Err(InsufficientData)
    else
      match ReturnsOf(stock)
      case Err(e) => Err(e)
      case Ok(sr) =>
        match ReturnsOf(market)
        case Err(e) => Err(e)
        case Ok(mr) => Ok(BetaOf(sr, mr))
  }

  /** `fetch_beta` on the two raw close series: nulls dropped, both cut to
      their last `min_len` closes, at least 30 needed. */
  function Beta(stockCloses: seq<Option<real>>, marketCloses: seq<Option<real>>): (r: Result<real, string>)
    ensures r == Err(InsufficientData) <==> |NonNull(stockCloses)| < 30 || |NonNull(marketCloses)| < 30
  {
    var s := NonNull(stockCloses);
    var m := NonNull(marketCloses);
    var k := if |s| < |m| then |s| else |m|;
    BetaFromCloses(Last(s, k), Last(m, k))
  }

  /** `fetch_beta` as written: with `min_len == 0` the slices `[-0:]` keep
      the whole lists, so a stock series of 30 closes against an empty market
      series passes the length guard and then indexes past the market's
      returns. */
  function BetaAsWritten(stockCloses: seq<Option<real>>, marketCloses: seq<Option<real>>): Result<real, string> {
    var s := NonNull(stockCloses);
    var m := NonNull(marketCloses);
    var k := if |s| < |m| then |s| else |m|;
    var s' := LastAsWritten(s, k);
    var m' := LastAsWritten(m, k);
    if |s'| < 30 then Err(InsufficientData)
    else
      match ReturnsOf(s')
      case Err(e) => Err(e)
      case Ok(sr) =>
        match ReturnsOf(m')
        case Err(e) => Err(e)
        case Ok(mr) => if |mr| < |sr| then Err(IndexOutOfRange) else Ok(BetaOf(sr, mr[..|sr|]))
  }

  /** Whenever both series keep at least one close, the code as written
      computes the corrected beta. */
  lemma BetaAsWrittenAgrees(stockCloses: seq<Option<real>>, marketCloses: seq<Option<real>>)
    requires |NonNull(stockCloses)| > 0 && |NonNull(marketCloses)| > 0
    ensures BetaAsWritten(stockCloses, marketCloses) == Beta(stockCloses, marketCloses)
  {
    var s := NonNull(stockCloses);
    var m := NonNull(marketCloses);
    var k := if |s| < |m| then |s| else |m|;
    if k >= 30 {
      var sr := ReturnsOf(Last(s, k));
      var mr := ReturnsOf(Last(m, k));
      if sr.Ok? && mr.Ok? {
        assert mr.value[..|sr.value|] == mr.value;
      }
    }
  }

  /** Thirty stock closes against a market series of nulls: the code as
      written fails with an index error, the corrected beta with "Insufficient
      data". */
  lemma BetaEmptyMarketCounterexample(stockCloses: seq<Option<real>>, marketCloses: seq<Option<real>>)
    requires |stockCloses| == 30 && forall i | 0 <= i < 30 :: stockCloses[i] == Some(1.0)
    requires forall i | 0 <= i < |marketCloses| :: marketCloses[i].None?
    ensures BetaAsWritten(stockCloses, marketCloses) == Err(IndexOutOfRange)
    ensures Beta(stockCloses, marketCloses) == Err(InsufficientData)
  {
    NonNullAllPresent(stockCloses);
    NonNullAllMissing(marketCloses);
    var s := NonNull(stockCloses);
    assert forall i | 0 <= i < 30 :: s[i] == 1.0 by {
      forall i | 0 <= i < 30
        ensures s[i] == 1.0
      {
        assert s[i] in s;
      }
    }
    assert ReturnsOf(s).Ok?;
  }

  /** The historical-volatility bands on the annualised percentage. */
  function HistoricalVolatilityImpact(v: real): (i: Impact)
    ensures i == Strength <==> v < 20.0
    ensures i == Neutral <==> 20.0 <= v < 35.0
    ensures i == Weakness <==> 35.0 <= v
  {
    if v < 20.0 then Strength
    else if v < 35.0 then Neutral
    else if v < 50.0 then Weakness
    else Weakness
  }

  /** `fetch_historical_volatility`: the last 30 non-null closes, at least 10
      needed; `annualize` is the sample standard deviation of the returns
      times the square root of 252, as a percentage. */
  function HistoricalVolatility(closes: seq<Option<real>>, annualize: seq<real> -> real): (r: Result<real, string>)
    ensures r == Err(InsufficientData) <==> |NonNull(closes)| < 10
    ensures r.Ok? ==> exists c :: |c| >= 10 && ReturnsOf(c).Ok? && r.value == annualize(ReturnsOf(c).value)
  {
    var c := NonNull(closes);
    var recent := if |c| <= 30 then c else Last(c, 30);
    if |recent| < 10 then Err(InsufficientData)
    else
      match ReturnsOf(recent)
      case Err(e) => Err(e)
      case Ok(rs) => Ok(annualize(rs))
  }

  /** An entry of the options chain; a missing strike or implied volatility
      is 0. */
  datatype Call = Call(strike: Option<real>, impliedVolatility: Option<real>)

  function Distance(c: Call, price: real): real {
    var d := c.strike.GetOr(0.0) - price;
    if d < 0.0 then -d else d
  }

  /** `min(calls, key=...)`: the first call whose strike is closest to the price. */
  function AtmIndex(calls: seq<Call>, price: real): (k: nat)
    requires |calls| > 0
    ensures k < |calls|
    ensures forall j | 0 <= j < |calls| :: Distance(calls[k], price) <= Distance(calls[j], price)
    ensures forall j | 0 <= j < k :: Distance(calls[j], price) > Distance(calls[k], price)
    decreases |calls|
  {
    if |calls| == 1 then 0
    else
      var k := AtmIndex(calls[..|calls| - 1], price);
      assert forall j | 0 <= j < |calls| - 1 :: calls[..|calls| - 1][j] == calls[j];
      if Distance(calls[|calls| - 1], price) < Distance(calls[k], price) then |calls| - 1 else k
  }

  /** The implied-volatility bands. */
  function ImpliedVolatilityImpact(iv: real): (i: Impact)
    ensures i == Opportunity <==> iv < 25.0
    ensures i == Neutral <==> 25.0 <= iv < 40.0
    ensures i == Threat <==> 40.0 <= iv
  {
    if iv < 25.0 then Opportunity
    else if iv < 40.0 then Neutral
    else if iv < 60.0 then Threat
    else Threat
  }

  /** What the options request gives: no chain, or the calls of the first
      expiry. */
  datatype OptionChain = NoChain | Chain(calls: seq<Call>)

  const NoOptionsData := "No options data"
  const NoCallsData := "No calls data"

  /** `fetch_implied_volatility_proxy`: the at-the-money call's implied
      volatility, as a percentage. */
  function ImpliedVolatility(price: Result<real, string>, chain: Result<OptionChain, string>): (r: Result<real, string>)
    ensures price.Ok? && chain == Ok(NoChain) ==> r == Err(NoOptionsData)
    ensures price.Ok? && chain == Ok(Chain([])) ==> r == Err(NoCallsData)
    ensures r.Ok? ==> price.Ok? && chain.Ok? && chain.value.Chain? && |chain.value.calls| > 0
    ensures r.Ok? ==> var calls := chain.value.calls;
                      exists k | 0 <= k < |calls| :: r.value == calls[k].impliedVolatility.GetOr(0.0) * 100.0
                        && forall j | 0 <= j < |calls| :: Distance(calls[k], price.value) <= Distance(calls[j], price.value)
  {
    match price
    case Err(e) => Err(e)
    case Ok(p) =>
      match chain
      case Err(e) => Err(e)
      case Ok(NoChain) => Err(NoOptionsData)
      case Ok(Chain(calls)) =>
        if |calls| == 0 then Err(NoCallsData)
        else
          var k := AtmIndex(calls, p);
          Ok(calls[k].impliedVolatility.GetOr(0.0) * 100.0)
  }

  datatype VolatilityMetric = VixLevel | BetaCoefficient | HistoricalVol | ImpliedVol

  /** An entry of the summary: which metric, its value and its category. */
  datatype Entry = Entry(metric: VolatilityMetric, value: real)

  function SignalFrom(metric: VolatilityMetric, r: Result<real, string>, impact: real -> Impact): (s: Option<Signal<Entry>>)
    ensures s.Some? <==> r.Ok?
    ensures s.Some? ==> s.value == Signal(impact(r.value), Entry(metric, r.value))
  {
    if r.Ok? then Some(Signal(impact(r.value), Entry(metric, r.value))) else None
  }

  function VixSignal(vix: Result<VixReading, string>): (s: Option<Signal<Entry>>)
    ensures s.Some? <==> vix.Ok?
    ensures s.Some? ==> s.value == Signal(vix.value.impact, Entry(VixLevel, vix.value.value))
  {
    if vix.Ok? then Some(Signal(vix.value.impact, Entry(VixLevel, vix.value.value))) else None
  }

  function VolatilitySignals(vix: Result<VixReading, string>, beta: Result<real, string>, hv: Result<real, string>,
                             iv: Result<real, string>): seq<Option<Signal<Entry>>> {
    [VixSignal(vix), SignalFrom(BetaCoefficient, beta, BetaImpact),
     SignalFrom(HistoricalVol, hv, HistoricalVolatilityImpact), SignalFrom(ImpliedVol, iv, ImpliedVolatilityImpact)]
  }

  /** `get_full_volatility_basket` given the four metrics: the routing loop. */
  method FullVolatilityBasket(vix: Result<VixReading, string>, beta: Result<real, string>, hv: Result<real, string>,
                              iv: Result<real, string>) returns (s: Summary<Entry>)
    ensures s == RouteAll(VolatilitySignals(vix, beta, hv, iv), FullRouting)
  {
    s := Route(VolatilitySignals(vix, beta, hv, iv), FullRouting);
  }

  /** The four metrics give at most four entries. */
  lemma VolatilitySummarySize(vix: Result<VixReading, string>, beta: Result<real, string>, hv: Result<real, string>,
                              iv: Result<real, string>)
    ensures RouteAll(VolatilitySignals(vix, beta, hv, iv), FullRouting).Size() <= 4
  {
    RouteSizeBound(VolatilitySignals(vix, beta, hv, iv), FullRouting);
  }

  /** Strengths and weaknesses can only come from beta and historical
      volatility. */
  lemma VolatilityStrengthSources(vix: Result<VixReading, string>, beta: Result<real, string>, hv: Result<real, string>,
                                  iv: Result<real, string>, x: Entry)
    requires vix.Ok? ==> vix.value.impact == VixImpact(vix.value.value)
    ensures x in RouteAll(VolatilitySignals(vix, beta, hv, iv), FullRouting).strengths ==>
              x.metric == BetaCoefficient || x.metric == HistoricalVol
    ensures x in RouteAll(VolatilitySignals(vix, beta, hv, iv), FullRouting).weaknesses ==>
              x.metric == BetaCoefficient || x.metric == HistoricalVol
  {
    var signals := VolatilitySignals(vix, beta, hv, iv);
    RouteMembership(signals, FullRouting, Strengths, x);
    RouteMembership(signals, FullRouting, Weaknesses, x);
  }

  /** Threats can only come from the VIX and implied volatility, and a VIX
      threat is a level of at least 20. */
  lemma VolatilityThreatSources(vix: Result<VixReading, string>, beta: Result<real, string>, hv: Result<real, string>,
                                iv: Result<real, string>, x: Entry)
    requires vix.Ok? ==> vix.value.impact == VixImpact(vix.value.value)
    ensures x in RouteAll(VolatilitySignals(vix, beta, hv, iv), FullRouting).threats ==>
              x.metric == VixLevel || x.metric == ImpliedVol
    ensures x in RouteAll(VolatilitySignals(vix, beta, hv, iv), FullRouting).threats && x.metric == VixLevel ==>
              20.0 <= x.value
  {
    RouteMembership(VolatilitySignals(vix, beta, hv, iv), FullRouting, Threats, x);
  }

  /** Opportunities can only come from the VIX and implied volatility. */
  lemma VolatilityOpportunitySources(vix: Result<VixReading, string>, beta: Result<real, string>, hv: Result<real, string>,
                                     iv: Result<real, string>, x: Entry)
    requires vix.Ok? ==> vix.value.impact == VixImpact(vix.value.value)
    ensures x in RouteAll(VolatilitySignals(vix, beta, hv, iv), FullRouting).opportunities ==>
              x.metric == VixLevel || x.metric == ImpliedVol
  {
    RouteMembership(VolatilitySignals(vix, beta, hv, iv), FullRouting, Opportunities, x);
  }
}
