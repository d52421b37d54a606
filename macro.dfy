/** The macro basket: four FRED series (real GDP growth, the federal funds
    rate, CPI and the unemployment rate), each reduced to its latest readings,
    classified into a SWOT category, and routed into a summary with an overall
    assessment. */
module Macro {
  import opened Wrappers
  import opened Swot

  /** What an observation's `value` field holds: absent or empty, FRED's "."
      for a missing reading, a numeral `float()` accepts, or text it rejects. */
  datatype ObsValue = Missing | Dot | Numeral(x: real) | Garbage

  datatype Observation = Observation(date: string, value: ObsValue)

  /** `obs.get("value") and obs["value"] != "."` */
  predicate Usable(o: Observation) {
    o.value.Numeral? || o.value.Garbage?
  }

  /** The index of the first usable observation at or after `start`. */
  function FirstUsable(obs: seq<Observation>, start: nat): (r: Option<nat>)
    ensures r.Some? ==> start <= r.value < |obs| && Usable(obs[r.value])
    ensures forall j | start <= j < |obs| && (r.None? || j < r.value) :: !Usable(obs[j])
    decreases |obs| - start
  {
    if start >= |obs| then None
    else if Usable(obs[start]) then Some(start)
    else FirstUsable(obs, start + 1)
  }

  /** `observations[1:]` */
  function Rest(obs: seq<Observation>): (r: seq<Observation>)
    ensures |obs| > 0 ==> r == obs[1..]
    ensures |obs| == 0 ==> r == []
  {
    if |obs| == 0 then [] else obs[1..]
  }

  const NoKeyError := "FRED_API_KEY not configured"
  const ConversionError := "could not convert string to float"

  /** `float(obs["value"])` at the index a scan found, if it found one. */
  function ValueAt(obs: seq<Observation>, i: Option<nat>): (r: Result<Option<real>, string>)
    requires i.Some? ==> i.value < |obs|
    ensures r == Ok(None) <==> i.None?
    ensures r.Err? <==> i.Some? && !obs[i.value].value.Numeral?
    ensures r.Ok? && r.value.Some? ==> obs[i.value].value == Numeral(r.value.value)
  {
    match i
    case None => Ok(None)
    case Some(k) => if obs[k].value.Numeral? then Ok(Some(obs[k].value.x)) else Err(ConversionError)
  }

  /** The fields of a successful `fetch_fred_series` result the basket reads. */
  datatype FredSeries = FredSeries(latest: Option<real>, latestDate: Option<string>, previous: Option<real>)

  /** `fetch_fred_series`: no key is an error; a failed request is an error
      carrying its message; otherwise the latest value is the first usable
      observation and the previous value the first usable one after index 0,
      and a rejected numeral in either is an error. */
  function FredSeriesOf(hasKey: bool, response: Result<seq<Observation>, string>): Result<FredSeries, string> {
    if !hasKey then Err(NoKeyError)
    else
      match response
      case Err(e) => Err(e)
      case Ok(obs) =>
        var i := FirstUsable(obs, 0);
        match ValueAt(obs, i)
        case Err(e) => Err(e)
        case Ok(latest) =>
          var rest := Rest(obs);
          match ValueAt(rest, FirstUsable(rest, 0))
          case Err(e) => Err(e)
          case Ok(previous) =>
            Ok(FredSeries(latest, if i.Some? then Some(obs[i.value].date) else None, previous))
  }

  /** The two scanning loops of `fetch_fred_series`, each stopping at the
      first usable observation. */
  method FetchFredSeries(hasKey: bool, response: Result<seq<Observation>, string>) returns (r: Result<FredSeries, string>)
    ensures r == FredSeriesOf(hasKey, response)
  {
    if !hasKey {
      return Err(NoKeyError);
    }
    if response.Err? {
      return Err(response.error);
    }
    var obs := response.value;
    var latest: Option<real> := None;
    var latestDate: Option<string> := None;
    var k := 0;
    while k < |obs|
      invariant 0 <= k <= |obs|
      invariant FirstUsable(obs, k) == FirstUsable(obs, 0)
      invariant latest.None? && latestDate.None?
    {
      if Usable(obs[k]) {
        if obs[k].value.Garbage? {
          return Err(ConversionError);
        }
        latest := Some(obs[k].value.x);
        latestDate := Some(obs[k].date);
        break;
      }
      k := k + 1;
    }
    var rest := Rest(obs);
    var previous: Option<real> := None;
    var j := 0;
    while j < |rest|
      invariant 0 <= j <= |rest|
      invariant FirstUsable(rest, j) == FirstUsable(rest, 0)
      invariant previous.None?
    {
      if Usable(rest[j]) {
        if rest[j].value.Garbage? {
          return Err(ConversionError);
        }
        previous := Some(rest[j].value.x);
        break;
      }
      j := j + 1;
    }
    r := Ok(FredSeries(latest, latestDate, previous));
  }

  /** The first usable observation from `start` on is at `k`. */
  lemma FirstUsableAt(obs: seq<Observation>, start: nat, k: nat)
    requires start <= k < |obs| && Usable(obs[k])
    requires forall j | start <= j < k :: !Usable(obs[j])
    ensures FirstUsable(obs, start) == Some(k)
  {
  }

  /** A successful fetch reports the first usable observation as the latest
      value, and no observation before it is usable. */
  lemma FredLatestIsFirstUsable(hasKey: bool, obs: seq<Observation>)
    requires FredSeriesOf(hasKey, Ok(obs)).Ok?
    ensures hasKey
    ensures var s := FredSeriesOf(hasKey, Ok(obs)).value;
            s.latest.Some? <==> exists k | 0 <= k < |obs| :: Usable(obs[k])
    ensures var s := FredSeriesOf(hasKey, Ok(obs)).value;
            s.latest.Some? ==>
              exists k | 0 <= k < |obs| :: obs[k].value == Numeral(s.latest.value) && s.latestDate == Some(obs[k].date)
                                          && forall j | 0 <= j < k :: !Usable(obs[j])
    ensures FredSeriesOf(hasKey, Ok(obs)).value.latest.None? ==> FredSeriesOf(hasKey, Ok(obs)).value.latestDate.None?
  {
    var i := FirstUsable(obs, 0);
    if i.Some? {
      var k := i.value;
      assert forall j | 0 <= j < k :: !Usable(obs[j]);
    }
  }

  /** When the newest observation is usable, the previous value is the next
      usable one after it. */
  lemma FredPreviousFollowsLatest(hasKey: bool, obs: seq<Observation>, k: nat)
    requires FredSeriesOf(hasKey, Ok(obs)).Ok?
    requires |obs| > 0 && Usable(obs[0])
    requires 0 < k < |obs| && Usable(obs[k]) && forall j | 0 < j < k :: !Usable(obs[j])
    ensures obs[0].value == Numeral(FredSeriesOf(hasKey, Ok(obs)).value.latest.value)
    ensures obs[k].value == Numeral(FredSeriesOf(hasKey, Ok(obs)).value.previous.value)
  {
    FirstUsableAt(obs, 0, 0);
    var rest := obs[1..];
    assert forall j | 0 <= j < k - 1 :: rest[j] == obs[j + 1];
    FirstUsableAt(rest, 0, k - 1);
  }

  /** The second scan starts at index 1 whatever the first found: when the
      newest observation is not usable, both scans stop at the same
      observation and the previous value repeats the latest one. */
  lemma FredPreviousRepeatsLatest(hasKey: bool, obs: seq<Observation>)
    requires FredSeriesOf(hasKey, Ok(obs)).Ok?
    requires |obs| > 0 && !Usable(obs[0])
    ensures FredSeriesOf(hasKey, Ok(obs)).value.previous == FredSeriesOf(hasKey, Ok(obs)).value.latest
  {
    var rest := obs[1..];
    var i := FirstUsable(obs, 0);
    if i.Some? {
      var k := i.value;
      assert forall j | 0 <= j < k - 1 :: rest[j] == obs[j + 1];
      FirstUsableAt(rest, 0, k - 1);
    } else {
      assert forall j | 0 <= j < |rest| :: rest[j] == obs[j + 1];
    }
  }

  /** The `trend` of the rate and unemployment metrics: a move of more than
      `band` from a non-zero previous value. */
  datatype Trend = Rising | Falling | Stable

  function TrendOf(value: real, previous: Option<real>, band: real): (t: Trend)
    ensures t == Stable <==> !NonZero(previous) || previous.value - band <= value <= previous.value + band
    ensures 0.0 <= band && t == Rising ==> NonZero(previous) && value > previous.value
    ensures 0.0 <= band && t == Falling ==> NonZero(previous) && value < previous.value
    ensures 0.0 <= band ==> (t == Rising <==> NonZero(previous) && value > previous.value + band)
    ensures 0.0 <= band ==> (t == Falling <==> NonZero(previous) && value < previous.value - band)
  {
    if NonZero(previous) && value > previous.value + band then Rising
    else if NonZero(previous) && value < previous.value - band then Falling
    else Stable
  }

  /** The band of `fetch_gdp_growth`; no reading is NEUTRAL. */
  function GdpImpact(v: Option<real>): (i: Impact)
    ensures i == Opportunity <==> v.Some? && v.value > 3.0
    ensures i == Neutral <==> v.None? || 1.0 < v.value <= 3.0
    ensures i == Threat <==> v.Some? && -2.0 < v.value <= 1.0
    ensures i == SevereThreat <==> v.Some? && v.value <= -2.0
  {
    if v.None? then Neutral
    else if v.value > 3.0 then Opportunity
    else if v.value > 1.0 then Neutral
    else if v.value > 0.0 then Threat
    else if v.value > -2.0 then Threat
    else SevereThreat
  }

  /** The band of `fetch_interest_rates`: high rates are a threat, low ones an
      opportunity, near-zero and moderate ones neutral. */
  function RateImpact(v: real): (i: Impact)
    ensures i == Threat <==> v > 5.0
    ensures i == Opportunity <==> 1.0 < v <= 3.0
    ensures i == Neutral <==> v <= 1.0 || 3.0 < v <= 5.0
  {
    if v > 5.0 then Threat
    else if v > 3.0 then Neutral
    else if v > 1.0 then Opportunity
    else Neutral
  }

  /** The band of `fetch_cpi` on the year-over-year inflation; no figure is
      NEUTRAL, deflation a threat. */
  function InflationImpact(yoy: Option<real>): (i: Impact)
    ensures i == Threat <==> yoy.Some? && (yoy.value > 4.0 || yoy.value <= 0.0)
    ensures i == Neutral <==> yoy.None? || 2.0 < yoy.value <= 4.0
    ensures i == Opportunity <==> yoy.Some? && 0.0 < yoy.value <= 2.0
  {
    if yoy.None? then Neutral
    else if yoy.value > 6.0 then Threat
    else if yoy.value > 4.0 then Threat
    else if yoy.value > 2.0 then Neutral
    else if yoy.value > 0.0 then Opportunity
    else Threat
  }

  /** The band of `fetch_unemployment`: low unemployment is an opportunity
      unless it is rising. */
  function UnemploymentImpact(v: real, trend: Trend): (i: Impact)
    ensures i == Opportunity <==> v < 4.0 && trend != Rising
    ensures i == Neutral <==> (v < 4.0 && trend == Rising) || 4.0 <= v < 5.0
    ensures i == Threat <==> 5.0 <= v < 7.0
    ensures i == SevereThreat <==> 7.0 <= v
  {
    if v < 4.0 then (if trend != Rising then Opportunity else Neutral)
    else if v < 5.0 then Neutral
    else if v < 7.0 then Threat
    else SevereThreat
  }

  datatype Metric = GdpGrowth | FederalFundsRate | CpiInflation | UnemploymentRate

  /** A metric dictionary without an `error` key: the value shown, its date,
      the previous value shown, the trend and the SWOT category. */
  datatype Reading = Reading(metric: Metric, value: Option<real>, date: Option<string>,
                             previous: Option<real>, trend: Option<Trend>, impact: Impact)

  function GdpReading(data: Result<FredSeries, string>): (r: Result<Reading, string>)
    ensures data.Err? <==> r.Err?
    ensures r.Ok? ==> r.value.metric == GdpGrowth && r.value.trend.None?
                      && r.value.impact == GdpImpact(data.value.latest)
                      && r.value.value == Shown(data.value.latest)
  {
    match data
    case Err(e) => Err(e)
    case Ok(s) => Ok(Reading(GdpGrowth, Shown(s.latest), s.latestDate, Shown(s.previous), None, GdpImpact(s.latest)))
  }

  /** The shared shape of the rate and unemployment metrics: the trend is
      computed only for a reading and shown only for a non-zero one. */
  function TrendShown(latest: Option<real>, previous: Option<real>, band: real): (t: Option<Trend>)
    ensures t.Some? <==> NonZero(latest)
    ensures t.Some? ==> t.value == TrendOf(latest.value, previous, band)
  {
    if NonZero(latest) then Some(TrendOf(latest.value, previous, band)) else None
  }

  function RateReading(data: Result<FredSeries, string>): (r: Result<Reading, string>)
    ensures data.Err? <==> r.Err?
    ensures r.Ok? ==> r.value.metric == FederalFundsRate
                      && r.value.impact == (if data.value.latest.None? then Neutral else RateImpact(data.value.latest.value))
                      && r.value.trend == TrendShown(data.value.latest, data.value.previous, 0.1)
  {
    match data
    case Err(e) => Err(e)
    case Ok(s) =>
      var impact := if s.latest.None? then Neutral else RateImpact(s.latest.value);
      Ok(Reading(FederalFundsRate, Shown(s.latest), s.latestDate, Shown(s.previous),
                 TrendShown(s.latest, s.previous, 0.1), impact))
  }

  function UnemploymentReading(data: Result<FredSeries, string>): (r: Result<Reading, string>)
    ensures data.Err? <==> r.Err?
    ensures r.Ok? ==> r.value.metric == UnemploymentRate
                      && r.value.trend == TrendShown(data.value.latest, data.value.previous, 0.2)
    ensures r.Ok? && data.value.latest.None? ==> r.value.impact == Neutral
    ensures r.Ok? && data.value.latest.Some? ==>
              r.value.impact == UnemploymentImpact(data.value.latest.value,
                                                   TrendOf(data.value.latest.value, data.value.previous, 0.2))
  {
    match data
    case Err(e) => Err(e)
    case Ok(s) =>
      var impact := if s.latest.None? then Neutral
                    else UnemploymentImpact(s.latest.value, TrendOf(s.latest.value, s.previous, 0.2));
      Ok(Reading(UnemploymentRate, Shown(s.latest), s.latestDate, Shown(s.previous),
                 TrendShown(s.latest, s.previous, 0.2), impact))
  }

  /** The observations `valid_obs` keeps, in order. */
  function UsableObs(obs: seq<Observation>): (r: seq<Observation>)
    ensures forall o :: o in r <==> o in obs && Usable(o)
    ensures |r| <= |obs|
    decreases |obs|
  {
    if |obs| == 0 then []
    else if Usable(obs[|obs| - 1]) then UsableObs(obs[..|obs| - 1]) + [obs[|obs| - 1]]
    else UsableObs(obs[..|obs| - 1])
  }

  /** The observation compared with the newest: the twelfth usable one, or
      the oldest when there are fewer than twelve. */
  function YearAgoIndex(n: nat): (k: nat)
    requires n >= 2
    ensures 0 < k < n
    ensures n >= 12 ==> k == 11
    ensures n < 12 ==> k == n - 1
  {
    if n >= 12 then 11 else n - 1
  }

  /** `((current - year_ago) / year_ago) * 100` when both are non-zero. */
  function Yoy(current: real, yearAgo: real): (r: Option<real>)
    ensures r.Some? <==> current != 0.0 && yearAgo != 0.0
    ensures r.Some? && yearAgo > 0.0 ==> (r.value > 0.0 <==> current > yearAgo)
    ensures r.Some? && yearAgo > 0.0 ==> (r.value == 0.0 <==> current == yearAgo)
  {
    if current != 0.0 && yearAgo != 0.0 then
      var p := (current - yearAgo) / yearAgo * 100.0;
      assert yearAgo > 0.0 ==> (p > 0.0 <==> current - yearAgo > 0.0);
      Some(p)
    else None
  }

  /** The year-over-year inflation and its date from the second CPI request;
      a failed request or a numeral `float()` rejects gives neither. */
  function CpiYoy(second: Result<seq<Observation>, string>): (r: (Option<real>, Option<string>))
    ensures r.0.Some? ==> r.1.Some?
    ensures second.Err? ==> r == (None, None)
    ensures second.Ok? && |UsableObs(second.value)| < 2 ==> r == (None, None)
  {
    match second
    case Err(_) => (None, None)
    case Ok(obs) =>
      var valid := UsableObs(obs);
      if exists k | 0 <= k < |valid| :: valid[k].value.Garbage? then (None, None)
      else if |valid| < 2 then (None, None)
      else
        var y := YearAgoIndex(|valid|);
        assert valid[0] in valid && valid[y] in valid;
        (Yoy(valid[0].value.x, valid[y].value.x), Some(valid[0].date))
  }

  /** The year-ago comparison reads the twelfth usable observation when there
      are at least twelve and the oldest otherwise. */
  lemma CpiComparesYearAgo(obs: seq<Observation>)
    requires forall k | 0 <= k < |UsableObs(obs)| :: UsableObs(obs)[k].value.Numeral?
    requires |UsableObs(obs)| >= 2
    ensures var valid := UsableObs(obs);
            var r := CpiYoy(Ok(obs));
            r.1 == Some(valid[0].date)
            && (|valid| >= 12 ==> r.0 == Yoy(valid[0].value.x, valid[11].value.x))
            && (|valid| < 12 ==> r.0 == Yoy(valid[0].value.x, valid[|valid| - 1].value.x))
  {
  }

  /** `fetch_cpi`: an error from the first request is the metric's error; the
      figure itself comes from the second request. */
  function CpiReading(first: Result<FredSeries, string>, second: Result<seq<Observation>, string>): (r: Result<Reading, string>)
    ensures first.Err? <==> r.Err?
    ensures r.Ok? ==> r.value.metric == CpiInflation && r.value.impact == InflationImpact(CpiYoy(second).0)
    ensures r.Ok? ==> r.value.value == Shown(CpiYoy(second).0) && r.value.date == CpiYoy(second).1
  {
    match first
    case Err(e) => Err(e)
    case Ok(_) =>
      var (yoy, date) := CpiYoy(second);
      Ok(Reading(CpiInflation, Shown(yoy), date, None, None, InflationImpact(yoy)))
  }

  /** The basket's routing: OPPORTUNITY to opportunities, THREAT and
      SEVERE_THREAT to threats, everything else nowhere. */
  function MacroRouting(i: Impact): (b: Option<Bucket>)
    ensures b == Some(Opportunities) <==> i == Opportunity
    ensures b == Some(Threats) <==> i == Threat || i == SevereThreat
    ensures b.None? <==> !(i == Opportunity || i == Threat || i == SevereThreat)
  {
    match i
    case Opportunity => Some(Opportunities)
    case Threat => Some(Threats)
    case SevereThreat => Some(Threats)
    case _ => None
  }

  /** A metric carrying an error is skipped. */
  function SignalOf(m: Result<Reading, string>): (s: Option<Signal<Reading>>)
    ensures s.Some? <==> m.Ok?
    ensures s.Some? ==> s.value == Signal(m.value.impact, m.value)
  {
    match m
    case Err(_) => None
    case Ok(r) => Some(Signal(r.impact, r))
  }

  datatype Outlook = Challenging | MixedHeadwinds | Favorable | NeutralOutlook

  /** `overall_assessment` from the sizes of the threat and opportunity lists. */
  function OverallAssessment(threats: nat, opportunities: nat): (o: Outlook)
    ensures o == Challenging <==> threats >= 3
    ensures o == MixedHeadwinds <==> threats == 2
    ensures o == Favorable <==> threats <= 1 && opportunities >= 2
    ensures o == NeutralOutlook <==> threats <= 1 && opportunities <= 1
  {
    if threats >= 3 then Challenging
    else if threats >= 2 then MixedHeadwinds
    else if opportunities >= 2 then Favorable
    else NeutralOutlook
  }

  datatype MacroBasket = MacroBasket(gdp: Result<Reading, string>, rates: Result<Reading, string>,
                                     cpi: Result<Reading, string>, unemployment: Result<Reading, string>,
                                     overall: Outlook, summary: Summary<Reading>)

  function Signals(gdp: Result<Reading, string>, rates: Result<Reading, string>,
                   cpi: Result<Reading, string>, unemployment: Result<Reading, string>): seq<Option<Signal<Reading>>> {
    [SignalOf(gdp), SignalOf(rates), SignalOf(cpi), SignalOf(unemployment)]
  }

  /** `get_full_macro_basket` given the four metrics. */
  method FullMacroBasket(gdp: Result<Reading, string>, rates: Result<Reading, string>,
                         cpi: Result<Reading, string>, unemployment: Result<Reading, string>)
    returns (b: MacroBasket)
    ensures b.gdp == gdp && b.rates == rates && b.cpi == cpi && b.unemployment == unemployment
    ensures b.summary == RouteAll(Signals(gdp, rates, cpi, unemployment), MacroRouting)
    ensures b.overall == OverallAssessment(|b.summary.threats|, |b.summary.opportunities|)
  {
    var summary := Route(Signals(gdp, rates, cpi, unemployment), MacroRouting);
    var overall := OverallAssessment(|summary.threats|, |summary.opportunities|);
    b := MacroBasket(gdp, rates, cpi, unemployment, overall, summary);
  }

  /** The macro basket never reports strengths or weaknesses; every threat
      and opportunity is a successful metric of that category, and the four
      metrics give at most four entries. */
  lemma MacroBasketSummary(gdp: Result<Reading, string>, rates: Result<Reading, string>,
                           cpi: Result<Reading, string>, unemployment: Result<Reading, string>, x: Reading)
    ensures var s := RouteAll(Signals(gdp, rates, cpi, unemployment), MacroRouting);
            s.strengths == [] && s.weaknesses == [] && s.Size() <= 4
    ensures var s := RouteAll(Signals(gdp, rates, cpi, unemployment), MacroRouting);
            x in s.threats <==> Ok(x) in [gdp, rates, cpi, unemployment] && (x.impact == Threat || x.impact == SevereThreat)
    ensures var s := RouteAll(Signals(gdp, rates, cpi, unemployment), MacroRouting);
            x in s.opportunities <==> Ok(x) in [gdp, rates, cpi, unemployment] && x.impact == Opportunity
  {
    var metrics := Signals(gdp, rates, cpi, unemployment);
    var ms := [gdp, rates, cpi, unemployment];
    RouteUnselectedEmpty(metrics, MacroRouting, Strengths);
    RouteUnselectedEmpty(metrics, MacroRouting, Weaknesses);
    RouteSizeBound(metrics, MacroRouting);
    RouteMembership(metrics, MacroRouting, Threats, x);
    RouteMembership(metrics, MacroRouting, Opportunities, x);
    assert forall k | 0 <= k < 4 :: metrics[k] == SignalOf(ms[k]);
    assert Ok(x) in ms <==> exists k | 0 <= k < 4 :: ms[k] == Ok(x);
  }

  /** Without an API key every metric is an error, both lists stay empty and
      the outlook is neutral. */
  lemma NoKeyIsNeutral(gdp: Result<seq<Observation>, string>, rates: Result<seq<Observation>, string>,
                       cpiFirst: Result<seq<Observation>, string>, cpiSecond: Result<seq<Observation>, string>,
                       unemployment: Result<seq<Observation>, string>)
    ensures var metrics := Signals(GdpReading(FredSeriesOf(false, gdp)), RateReading(FredSeriesOf(false, rates)),
                                   CpiReading(FredSeriesOf(false, cpiFirst), cpiSecond),
                                   UnemploymentReading(FredSeriesOf(false, unemployment)));
            var s := RouteAll(metrics, MacroRouting);
            s.Size() == 0 && OverallAssessment(|s.threats|, |s.opportunities|) == NeutralOutlook
  {
    var metrics := Signals(GdpReading(FredSeriesOf(false, gdp)), RateReading(FredSeriesOf(false, rates)),
                           CpiReading(FredSeriesOf(false, cpiFirst), cpiSecond),
                           UnemploymentReading(FredSeriesOf(false, unemployment)));
    RouteAllFailed(metrics, MacroRouting);
  }

  /** A favorable outlook needs at least two of the four metrics to be
      opportunities, and a challenging one at least three threats. */
  lemma OutlookNeedsSignals(gdp: Result<Reading, string>, rates: Result<Reading, string>,
                            cpi: Result<Reading, string>, unemployment: Result<Reading, string>)
    ensures var s := RouteAll(Signals(gdp, rates, cpi, unemployment), MacroRouting);
            var o := OverallAssessment(|s.threats|, |s.opportunities|);
            (o == Favorable ==> |s.opportunities| >= 2 && |s.opportunities| + |s.threats| <= 4)
            && (o == Challenging ==> |s.opportunities| <= 1)
  {
    MacroBasketSummary(gdp, rates, cpi, unemployment, Reading(GdpGrowth, None, None, None, None, Neutral));
  }
}
