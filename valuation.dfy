/** The valuation basket: five price multiples read from one Yahoo Finance
    quote summary, each classified on its own, and a combined basket that
    flags the cheap and the expensive ones and sums them up. */
module Valuation {
  import opened Wrappers
  import opened Text
  import opened Swot

  /** A JSON scalar as Yahoo sends it. */
  datatype Scalar = SNull | SBool(b: bool) | SNum(x: real) | SText(s: string)

  /** A field of a quote module: either a bare scalar or a formatted number,
      a dictionary whose "raw" key holds the number (absent: `None`). The
      "raw" part is always a number here (a bool stands as 1 or 0). */
  datatype Field = Plain(v: Scalar) | Formatted(raw: Option<real>)

  type Section = map<string, Field>

  /** The `summaryDetail` and `defaultKeyStatistics` modules of a quote
      (a missing module is an empty one). */
  datatype Quote = Quote(summary: Section, keyStats: Section)

  /** The outcome of the quote request as `fetch_yahoo_quote` sees it. */
  datatype YahooResponse = Response(status: int, results: seq<Quote>) | RequestFailed(message: string)

  datatype QuoteError = BadStatus(code: int) | NoData | Exception(message: string)

  /** `fetch_yahoo_quote`: a non-200 status, an empty result list or a failed
      request is an error; otherwise the first result. */
  function QuoteOf(resp: YahooResponse): (r: Result<Quote, QuoteError>)
    ensures r.Ok? <==> resp.Response? && resp.status == 200 && |resp.results| > 0
    ensures r.Ok? ==> r.value == resp.results[0]
    ensures resp.Response? && resp.status != 200 ==> r == Err(BadStatus(resp.status))
  {
    match resp
    case RequestFailed(m) => Err(Exception(m))
    case Response(status, results) =>
      if status != 200 then Err(BadStatus(status))
      else if |results| == 0 then Err(NoData)
      else Ok(results[0])
  }

  /** A scalar Python treats as a number: an int or a float, and so a bool. */
  function NumberOf(v: Scalar): (r: Option<real>)
    ensures r.Some? <==> v.SNum? || v.SBool?
    ensures v.SNum? ==> r == Some(v.x)
    ensures v.SBool? ==> r == Some(if v.b then 1.0 else 0.0)
  {
    match v
    case SNum(x) => Some(x)
    case SBool(b) => Some(if b then 1.0 else 0.0)
    case _ => None
  }

  /** `safe_get(data, key)`: the "raw" part of a formatted field as it is,
      the number of a bare one, and `None` for a missing key or anything else. */
  function SafeGet(data: Section, key: string): (r: Option<real>)
    ensures key !in data ==> r.None?
    ensures key in data && data[key].Plain? ==> r == NumberOf(data[key].v)
    ensures key in data && data[key].Formatted? ==> r == data[key].raw
  {
    if key !in data then None
    else
      match data[key]
      case Plain(v) => NumberOf(v)
      case Formatted(raw) => raw
  }

  function ForwardPe(q: Quote): Option<real> {
    Or(SafeGet(q.summary, "forwardPE"), SafeGet(q.keyStats, "forwardPE"))
  }

  function TrailingPe(q: Quote): Option<real> {
    SafeGet(q.summary, "trailingPE")
  }

  datatype Ratio = PeRatio | PsRatio | PbRatio | EvEbitda | PegRatio

  /** Where each fetcher reads its ratio: P/E is trailing, else forward
      (summary first, then key statistics); P/S is the summary's, else the key
      statistics'; the other three come from the key statistics. */
  function RatioValue(ratio: Ratio, q: Quote): (r: Option<real>)
    ensures ratio == PeRatio && NonZero(TrailingPe(q)) ==> r == TrailingPe(q)
    ensures ratio == PeRatio && !NonZero(TrailingPe(q)) && NonZero(SafeGet(q.summary, "forwardPE")) ==>
              r == SafeGet(q.summary, "forwardPE")
    ensures ratio == PeRatio && !NonZero(TrailingPe(q)) && !NonZero(SafeGet(q.summary, "forwardPE")) ==>
              r == SafeGet(q.keyStats, "forwardPE")
    ensures ratio == PsRatio && NonZero(SafeGet(q.summary, "priceToSalesTrailing12Months")) ==>
              r == SafeGet(q.summary, "priceToSalesTrailing12Months")
    ensures ratio == PsRatio && !NonZero(SafeGet(q.summary, "priceToSalesTrailing12Months")) ==>
              r == SafeGet(q.keyStats, "priceToSalesTrailing12Months")
    ensures ratio == PbRatio ==> r == SafeGet(q.keyStats, "priceToBook")
    ensures ratio == EvEbitda ==> r == SafeGet(q.keyStats, "enterpriseToEbitda")
    ensures ratio == PegRatio ==> r == SafeGet(q.keyStats, "pegRatio")
  {
    match ratio
    case PeRatio => Or(TrailingPe(q), ForwardPe(q))
    case PsRatio => Or(SafeGet(q.summary, "priceToSalesTrailing12Months"), SafeGet(q.keyStats, "priceToSalesTrailing12Months"))
    case PbRatio => SafeGet(q.keyStats, "priceToBook")
    case EvEbitda => SafeGet(q.keyStats, "enterpriseToEbitda")
    case PegRatio => SafeGet(q.keyStats, "pegRatio")
  }

  /** The P/E bands of `fetch_pe_ratio`: losses and a P/E of 30 or more are
      weaknesses, below 10 an opportunity. */
  function PeImpact(v: real): (i: Impact)
    ensures i == Weakness <==> v < 0.0 || v >= 30.0
    ensures i == Opportunity <==> 0.0 <= v < 10.0
    ensures i == Neutral <==> 10.0 <= v < 30.0
  {
    if v < 0.0 then Weakness
    else if v < 10.0 then Opportunity
    else if v < 20.0 then Neutral
    else if v < 30.0 then Neutral
    else if v < 50.0 then Weakness
    else Weakness
  }

  /** The P/S bands of `fetch_ps_ratio`. */
  function PsImpact(v: real): (i: Impact)
    ensures i == Opportunity <==> v < 1.0
    ensures i == Neutral <==> 1.0 <= v < 8.0
    ensures i == Weakness <==> v >= 8.0
  {
    if v < 1.0 then Opportunity
    else if v < 3.0 then Neutral
    else if v < 8.0 then Neutral
    else if v < 15.0 then Weakness
    else Weakness
  }

  /** The P/B bands of `fetch_pb_ratio`. */
  function PbImpact(v: real): (i: Impact)
    ensures i == Opportunity <==> v < 1.0
    ensures i == Neutral <==> 1.0 <= v < 5.0
    ensures i == Weakness <==> v >= 5.0
  {
    if v < 1.0 then Opportunity
    else if v < 3.0 then Neutral
    else if v < 5.0 then Neutral
    else Weakness
  }

  /** The EV/EBITDA bands of `fetch_ev_ebitda`. */
  function EvEbitdaImpact(v: real): (i: Impact)
    ensures i == Weakness <==> v < 0.0 || v >= 20.0
    ensures i == Opportunity <==> 0.0 <= v < 8.0
    ensures i == Neutral <==> 8.0 <= v < 20.0
  {
    if v < 0.0 then Weakness
    else if v < 8.0 then Opportunity
    else if v < 12.0 then Neutral
    else if v < 20.0 then Neutral
    else Weakness
  }

  /** The PEG bands of `fetch_peg_ratio`. */
  function PegImpact(v: real): (i: Impact)
    ensures i == Weakness <==> v < 0.0 || v >= 2.0
    ensures i == Opportunity <==> 0.0 <= v < 1.0
    ensures i == Neutral <==> 1.0 <= v < 2.0
  {
    if v < 0.0 then Weakness
    else if v < 1.0 then Opportunity
    else if v < 1.5 then Neutral
    else if v < 2.0 then Neutral
    else Weakness
  }

  function RatioImpact(ratio: Ratio, v: real): (i: Impact)
    ensures i == Opportunity || i == Neutral || i == Weakness
  {
    match ratio
    case PeRatio => PeImpact(v)
    case PsRatio => PsImpact(v)
    case PbRatio => PbImpact(v)
    case EvEbitda => EvEbitdaImpact(v)
    case PegRatio => PegImpact(v)
  }

  /** The record a single-ratio fetcher returns. */
  datatype RatioResult =
    | FetchFailed(ratio: Ratio, error: QuoteError)
    | NotAvailable(ratio: Ratio)
    | RatioReading(ratio: Ratio, value: real, impact: Impact)

  /** `fetch_pe_ratio` … `fetch_peg_ratio`: a quote error is passed through
      tagged with the ratio, a missing ratio is "not available", and a ratio
      is classified by its own bands. */
  function RatioOf(ratio: Ratio, quote: Result<Quote, QuoteError>): (r: RatioResult)
    ensures r.ratio == ratio
    ensures r.FetchFailed? <==> quote.Err?
    ensures r.FetchFailed? ==> r.error == quote.error
    ensures r.NotAvailable? <==> quote.Ok? && RatioValue(ratio, quote.value).None?
    ensures r.RatioReading? ==> Some(r.value) == RatioValue(ratio, quote.value) && r.impact == RatioImpact(ratio, r.value)
  {
    match quote
    case Err(e) => FetchFailed(ratio, e)
    case Ok(q) =>
      match RatioValue(ratio, q)
      case None => NotAvailable(ratio)
      case Some(v) => RatioReading(ratio, v, RatioImpact(ratio, v))
  }

  /** A zero trailing P/E gives way to the forward one. */
  lemma PeFallsBackToForward(q: Quote)
    requires !NonZero(TrailingPe(q))
    ensures RatioOf(PeRatio, Ok(q)).NotAvailable? <==> ForwardPe(q).None?
    ensures ForwardPe(q).Some? ==> RatioOf(PeRatio, Ok(q)).value == ForwardPe(q).value
  {
  }

  /** The entries of the combined basket's `swot_summary`. */
  datatype ValuationFlag =
    | LowPe(pe: real) | HighPe(pe: real)
    | LowPs(ps: real) | HighPs(ps: real)
    | BelowBook(pb: real) | HighPb(pb: real)
    | LowEvEbitda(ev: real) | HighEvEbitda(ev: real)
    | LowPeg(peg: real) | HighPeg(peg: real)

  predicate IsLow(f: ValuationFlag) {
    f.LowPe? || f.LowPs? || f.BelowBook? || f.LowEvEbitda? || f.LowPeg?
  }

  /** The basket's P/E rule reads the trailing P/E only: between 0 and 15 it
      is an opportunity, above 40 a weakness. */
  function PeFlag(pe: Option<real>): (r: Option<Signal<ValuationFlag>>)
    ensures r.Some? <==> pe.Some? && (0.0 < pe.value < 15.0 || pe.value > 40.0)
    ensures r.Some? && 0.0 < pe.value < 15.0 ==> r.value == Signal(Opportunity, LowPe(pe.value))
    ensures r.Some? && pe.value > 40.0 ==> r.value == Signal(Weakness, HighPe(pe.value))
  {
    if NonZero(pe) then
      if 0.0 < pe.value < 15.0 then Some(Signal(Opportunity, LowPe(pe.value)))
      else if pe.value > 40.0 then Some(Signal(Weakness, HighPe(pe.value)))
      else None
    else None
  }

  /** Below 1 (a negative P/S included) is an opportunity, above 10 a weakness. */
  function PsFlag(ps: Option<real>): (r: Option<Signal<ValuationFlag>>)
    ensures r.Some? <==> NonZero(ps) && (ps.value < 1.0 || ps.value > 10.0)
    ensures r.Some? && ps.value < 1.0 ==> r.value == Signal(Opportunity, LowPs(ps.value))
    ensures r.Some? && ps.value > 10.0 ==> r.value == Signal(Weakness, HighPs(ps.value))
  {
    if NonZero(ps) then
      if ps.value < 1.0 then Some(Signal(Opportunity, LowPs(ps.value)))
      else if ps.value > 10.0 then Some(Signal(Weakness, HighPs(ps.value)))
      else None
    else None
  }

  /** Below book value (a negative P/B included) is an opportunity, above 8 a weakness. */
  function PbFlag(pb: Option<real>): (r: Option<Signal<ValuationFlag>>)
    ensures r.Some? <==> NonZero(pb) && (pb.value < 1.0 || pb.value > 8.0)
    ensures r.Some? && pb.value < 1.0 ==> r.value == Signal(Opportunity, BelowBook(pb.value))
    ensures r.Some? && pb.value > 8.0 ==> r.value == Signal(Weakness, HighPb(pb.value))
  {
    if NonZero(pb) then
      if pb.value < 1.0 then Some(Signal(Opportunity, BelowBook(pb.value)))
      else if pb.value > 8.0 then Some(Signal(Weakness, HighPb(pb.value)))
      else None
    else None
  }

  /** Between 0 and 8 is an opportunity, above 20 a weakness. */
  function EvEbitdaFlag(ev: Option<real>): (r: Option<Signal<ValuationFlag>>)
    ensures r.Some? <==> ev.Some? && (0.0 < ev.value < 8.0 || ev.value > 20.0)
    ensures r.Some? && 0.0 < ev.value < 8.0 ==> r.value == Signal(Opportunity, LowEvEbitda(ev.value))
    ensures r.Some? && ev.value > 20.0 ==> r.value == Signal(Weakness, HighEvEbitda(ev.value))
  {
    if NonZero(ev) then
      if 0.0 < ev.value < 8.0 then Some(Signal(Opportunity, LowEvEbitda(ev.value)))
      else if ev.value > 20.0 then Some(Signal(Weakness, HighEvEbitda(ev.value)))
      else None
    else None
  }

  /** Between 0 and 1 is an opportunity, above 2 a weakness. */
  function PegFlag(peg: Option<real>): (r: Option<Signal<ValuationFlag>>)
    ensures r.Some? <==> peg.Some? && (0.0 < peg.value < 1.0 || peg.value > 2.0)
    ensures r.Some? && 0.0 < peg.value < 1.0 ==> r.value == Signal(Opportunity, LowPeg(peg.value))
    ensures r.Some? && peg.value > 2.0 ==> r.value == Signal(Weakness, HighPeg(peg.value))
  {
    if NonZero(peg) then
      if 0.0 < peg.value < 1.0 then Some(Signal(Opportunity, LowPeg(peg.value)))
      else if peg.value > 2.0 then Some(Signal(Weakness, HighPeg(peg.value)))
      else None
    else None
  }

  /** The `metrics` the basket extracts from the quote. */
  datatype Metrics = Metrics(trailingPe: Option<real>, forwardPe: Option<real>, ps: Option<real>, pb: Option<real>,
                             evEbitda: Option<real>, peg: Option<real>, enterpriseValue: Option<real>,
                             marketCap: Option<real>)

  function MetricsOf(q: Quote): (m: Metrics)
    ensures m.trailingPe == TrailingPe(q) && m.forwardPe == ForwardPe(q)
    ensures m.ps == RatioValue(PsRatio, q) && m.pb == RatioValue(PbRatio, q)
    ensures m.evEbitda == RatioValue(EvEbitda, q) && m.peg == RatioValue(PegRatio, q)
  {
    Metrics(TrailingPe(q), ForwardPe(q), RatioValue(PsRatio, q), RatioValue(PbRatio, q),
            RatioValue(EvEbitda, q), RatioValue(PegRatio, q),
            SafeGet(q.keyStats, "enterpriseValue"), SafeGet(q.summary, "marketCap"))
  }

  /** `formatted_metrics`: every ratio reported only when non-zero. */
  function Formatted(m: Metrics): (f: Metrics)
    ensures f.trailingPe == Shown(m.trailingPe) && f.forwardPe == Shown(m.forwardPe)
    ensures f.ps == Shown(m.ps) && f.pb == Shown(m.pb) && f.evEbitda == Shown(m.evEbitda) && f.peg == Shown(m.peg)
    ensures f.enterpriseValue == m.enterpriseValue && f.marketCap == m.marketCap
  {
    Metrics(Shown(m.trailingPe), Shown(m.forwardPe), Shown(m.ps), Shown(m.pb), Shown(m.evEbitda), Shown(m.peg),
            m.enterpriseValue, m.marketCap)
  }

  /** The five rules of the basket, in the order they append. */
  function ValuationSignals(m: Metrics): seq<Option<Signal<ValuationFlag>>> {
    [PeFlag(m.trailingPe), PsFlag(m.ps), PbFlag(m.pb), EvEbitdaFlag(m.evEbitda), PegFlag(m.peg)]
  }

  datatype ValuationOutlook = Undervalued | PremiumValuation | Attractive | Expensive | MixedSignals

  /** `overall` from the opportunity and weakness counts. */
  function OverallValuation(opportunities: nat, weaknesses: nat): (o: ValuationOutlook)
    ensures o == Undervalued <==> opportunities >= 3
    ensures o == PremiumValuation <==> opportunities < 3 && weaknesses >= 3
    ensures o == Attractive <==> weaknesses < opportunities < 3
    ensures o == Expensive <==> opportunities < weaknesses < 3
    ensures o == MixedSignals <==> opportunities == weaknesses < 3
  {
    if opportunities >= 3 then Undervalued
    else if weaknesses >= 3 then PremiumValuation
    else if opportunities > weaknesses then Attractive
    else if weaknesses > opportunities then Expensive
    else MixedSignals
  }

  datatype ValuationBasket =
    | QuoteFailed(ticker: string, error: QuoteError)
    | Basket(ticker: string, metrics: Metrics, overall: ValuationOutlook, summary: Summary<ValuationFlag>)

  /** `get_full_valuation_basket`: a quote error gives only the ticker and the
      error; otherwise the formatted metrics, the five rules' summary and the
      overall assessment. */
  function ValuationBasketOf(ticker: string, quote: Result<Quote, QuoteError>): (b: ValuationBasket)
    ensures b.ticker == Upper(ticker)
    ensures b.QuoteFailed? <==> quote.Err?
    ensures b.QuoteFailed? ==> b.error == quote.error
  {
    match quote
    case Err(e) => QuoteFailed(Upper(ticker), e)
    case Ok(q) =>
      var m := MetricsOf(q);
      var s := RouteAll(ValuationSignals(m), FullRouting);
      Basket(Upper(ticker), Formatted(m), OverallValuation(|s.opportunities|, |s.weaknesses|), s)
  }

  method ApplyPeRule(s0: Summary<ValuationFlag>, pe: Option<real>) returns (s: Summary<ValuationFlag>)
    ensures s == RouteOne(s0, PeFlag(pe), FullRouting)
  {
    s := s0;
    if NonZero(pe) {
      if 0.0 < pe.value < 15.0 {
        s := s.Add(Opportunities, LowPe(pe.value));
      } else if pe.value > 40.0 {
        s := s.Add(Weaknesses, HighPe(pe.value));
      }
    }
  }

  method ApplyPsRule(s0: Summary<ValuationFlag>, ps: Option<real>) returns (s: Summary<ValuationFlag>)
    ensures s == RouteOne(s0, PsFlag(ps), FullRouting)
  {
    s := s0;
    if NonZero(ps) {
      if ps.value < 1.0 {
        s := s.Add(Opportunities, LowPs(ps.value));
      } else if ps.value > 10.0 {
        s := s.Add(Weaknesses, HighPs(ps.value));
      }
    }
  }

  method ApplyPbRule(s0: Summary<ValuationFlag>, pb: Option<real>) returns (s: Summary<ValuationFlag>)
    ensures s == RouteOne(s0, PbFlag(pb), FullRouting)
  {
    s := s0;
    if NonZero(pb) {
      if pb.value < 1.0 {
        s := s.Add(Opportunities, BelowBook(pb.value));
      } else if pb.value > 8.0 {
        s := s.Add(Weaknesses, HighPb(pb.value));
      }
    }
  }

  method ApplyEvEbitdaRule(s0: Summary<ValuationFlag>, ev: Option<real>) returns (s: Summary<ValuationFlag>)
    ensures s == RouteOne(s0, EvEbitdaFlag(ev), FullRouting)
  {
    s := s0;
    if NonZero(ev) {
      if 0.0 < ev.value < 8.0 {
        s := s.Add(Opportunities, LowEvEbitda(ev.value));
      } else if ev.value > 20.0 {
        s := s.Add(Weaknesses, HighEvEbitda(ev.value));
      }
    }
  }

  method ApplyPegRule(s0: Summary<ValuationFlag>, peg: Option<real>) returns (s: Summary<ValuationFlag>)
    ensures s == RouteOne(s0, PegFlag(peg), FullRouting)
  {
    s := s0;
    if NonZero(peg) {
      if 0.0 < peg.value < 1.0 {
        s := s.Add(Opportunities, LowPeg(peg.value));
      } else if peg.value > 2.0 {
        s := s.Add(Weaknesses, HighPeg(peg.value));
      }
    }
  }

  /** `get_full_valuation_basket` once the quote has been fetched: the five
      `if` blocks appending to the summary lists, then the counts. */
  method FullValuationBasket(ticker: string, quote: Result<Quote, QuoteError>) returns (b: ValuationBasket)
    ensures b == ValuationBasketOf(ticker, quote)
  {
    if quote.Err? {
      return QuoteFailed(Upper(ticker), quote.error);
    }
    var m := MetricsOf(quote.value);
    var s := ValuationRules(m);
    var overall := OverallValuation(|s.opportunities|, |s.weaknesses|);
    b := Basket(Upper(ticker), Formatted(m), overall, s);
  }

  /** The five `if` blocks, in order. */
  method ValuationRules(m: Metrics) returns (s: Summary<ValuationFlag>)
    ensures s == RouteAll(ValuationSignals(m), FullRouting)
  {
    ghost var signals := ValuationSignals(m);
    s := EmptySummary();
    assert s == RouteAll(signals[..0], FullRouting);
    s := ApplyPeRule(s, m.trailingPe);
    RouteStep(signals, FullRouting, 0);
    s := ApplyPsRule(s, m.ps);
    RouteStep(signals, FullRouting, 1);
    s := ApplyPbRule(s, m.pb);
    RouteStep(signals, FullRouting, 2);
    s := ApplyEvEbitdaRule(s, m.evEbitda);
    RouteStep(signals, FullRouting, 3);
    s := ApplyPegRule(s, m.peg);
    RouteStep(signals, FullRouting, 4);
    assert signals[..5] == signals;
  }

  /** Each of the five ratios adds at most one entry; strengths and threats
      stay empty, every opportunity is a "low" flag and every weakness a
      "high" one. */
  lemma ValuationSummaryShape(m: Metrics)
    ensures var s := RouteAll(ValuationSignals(m), FullRouting);
            s.strengths == [] && s.threats == [] && |s.opportunities| + |s.weaknesses| <= 5
    ensures var s := RouteAll(ValuationSignals(m), FullRouting);
            (forall x | x in s.opportunities :: IsLow(x)) && (forall x | x in s.weaknesses :: !IsLow(x))
  {
    var signals := ValuationSignals(m);
    var s := RouteAll(signals, FullRouting);
    RouteSizeBound(signals, FullRouting);
    assert forall k | 0 <= k < 5 && signals[k].Some? :: signals[k].value.impact == Opportunity || signals[k].value.impact == Weakness;
    RouteUnusedEmpty(signals, FullRouting, Strengths);
    RouteUnusedEmpty(signals, FullRouting, Threats);
    assert forall k | 0 <= k < 5 && signals[k].Some? :: signals[k].value.impact == Opportunity <==> IsLow(signals[k].value.entry);
    forall x | x in s.opportunities
      ensures IsLow(x)
    {
      RouteMembership(signals, FullRouting, Opportunities, x);
    }
    forall x | x in s.weaknesses
      ensures !IsLow(x)
    {
      RouteMembership(signals, FullRouting, Weaknesses, x);
    }
  }

  /** On P/S, P/B, EV/EBITDA and PEG a non-zero ratio is flagged as an
      opportunity exactly when its own fetcher calls it one, and every flagged
      weakness is one for the fetcher too; the P/E rule uses other bounds, but
      a non-zero trailing P/E the fetcher calls an opportunity is flagged as
      one. */
  lemma FlagsAgreeWithFetchers(q: Quote, ratio: Ratio)
    requires NonZero(RatioValue(ratio, q))
    ensures var m := MetricsOf(q);
            var v := RatioValue(ratio, q).value;
            var flag := match ratio
                        case PeRatio => PeFlag(m.trailingPe)
                        case PsRatio => PsFlag(m.ps)
                        case PbRatio => PbFlag(m.pb)
                        case EvEbitda => EvEbitdaFlag(m.evEbitda)
                        case PegRatio => PegFlag(m.peg);
            (ratio != PeRatio ==> (flag.Some? && flag.value.impact == Opportunity <==> RatioImpact(ratio, v) == Opportunity))
            && (flag.Some? && flag.value.impact == Weakness ==> RatioImpact(ratio, v) == Weakness)
            && (ratio == PeRatio && NonZero(m.trailingPe) && RatioImpact(ratio, v) == Opportunity ==>
                  flag.Some? && flag.value.impact == Opportunity)
  {
  }
}
