/** The news basket: Tavily web search, the company-news search with its
    keyword hints for the SWOT opportunities and threats, and the
    going-concern search with its risk assessment. */
module News {
  import opened Wrappers
  import opened Text

  datatype Depth = Basic | Advanced

  /** The arguments of `tavily_search`. */
  datatype TavilyRequest = TavilyRequest(query: string, depth: Depth, maxResults: int, includeDomains: seq<string>,
                                         excludeDomains: seq<string>, includeAnswer: bool)

  /** The JSON body posted to the search endpoint (the API key aside). */
  datatype Payload = Payload(query: string, depth: Depth, maxResults: int, includeAnswer: bool, includeRawContent: bool,
                             includeDomains: Option<seq<string>>, excludeDomains: Option<seq<string>>)

  const MaxResultsCap := 10

  /** The payload: `max_results` capped at 10, raw content never asked for,
      and the domain lists present only when non-empty. */
  function PayloadOf(r: TavilyRequest): (p: Payload)
    ensures p.query == r.query && p.depth == r.depth && p.includeAnswer == r.includeAnswer && !p.includeRawContent
    ensures p.maxResults <= MaxResultsCap && p.maxResults <= r.maxResults
    ensures p.maxResults == r.maxResults || p.maxResults == MaxResultsCap
    ensures p.includeDomains.Some? <==> |r.includeDomains| > 0
    ensures p.includeDomains.Some? ==> p.includeDomains.value == r.includeDomains
    ensures p.excludeDomains.Some? <==> |r.excludeDomains| > 0
    ensures p.excludeDomains.Some? ==> p.excludeDomains.value == r.excludeDomains
  {
    Payload(r.query, r.depth, if r.maxResults < MaxResultsCap then r.maxResults else MaxResultsCap,
            r.includeAnswer, false,
            if |r.includeDomains| > 0 then Some(r.includeDomains) else None,
            if |r.excludeDomains| > 0 then Some(r.excludeDomains) else None)
  }

  /** A search hit, with the fields the formatted results keep. */
  datatype Hit = Hit(title: Option<string>, url: Option<string>, content: Option<string>, score: Option<real>,
                     publishedDate: Option<string>)

  /** What posting a payload gives: an HTTP response or an exception. */
  datatype TavilyResponse = HttpResponse(status: int, body: string, answer: Option<string>, hits: seq<Hit>)
                          | Raised(message: string)

  datatype SearchError = NotConfigured | ApiError(status: int, body: string) | SearchException(message: string)

  datatype Found = Found(query: string, answer: Option<string>, results: seq<Hit>, resultCount: nat, depth: Depth)

  /** `tavily_search`; `send` is the HTTP call. */
  function TavilySearchOf(hasKey: bool, req: TavilyRequest, send: Payload -> TavilyResponse): (r: Result<Found, SearchError>)
    ensures !hasKey ==> r == Err(NotConfigured)
    ensures r.Err? && r.error.ApiError? ==> r.error.status != 200
    ensures r.Ok? ==> hasKey && send(PayloadOf(req)).HttpResponse? && send(PayloadOf(req)).status == 200
    ensures r.Ok? ==> r.value.results == send(PayloadOf(req)).hits && r.value.resultCount == |r.value.results|
                      && r.value.query == req.query && r.value.depth == req.depth
    ensures hasKey && send(PayloadOf(req)).HttpResponse? && send(PayloadOf(req)).status != 200 ==>
              r == Err(ApiError(send(PayloadOf(req)).status, send(PayloadOf(req)).body))
  {
    if !hasKey then Err(NotConfigured)
    else
      match send(PayloadOf(req))
      case Raised(m) => Err(SearchException(m))
      case HttpResponse(status, body, answer, hits) =>
        if status != 200 then Err(ApiError(status, body))
        else Ok(Found(req.query, answer, hits, |hits|, req.depth))
  }

  /** The company-news query, with the company name when one is given. */
  function CompanyQuery(ticker: string, companyName: Option<string>): (q: string)
    ensures EndsWith(q, " stock news")
    ensures companyName.None? || companyName.value == "" ==> q == ticker + " stock news"
    ensures companyName.Some? && companyName.value != "" ==> StartsWith(q, companyName.value + " (" + ticker + ")")
  {
    var tail := " stock news";
    var q := if companyName.Some? && companyName.value != "" then companyName.value + " (" + ticker + ")" + tail else ticker + tail;
    assert q[|q| - |tail|..] == tail;
    q
  }

  const ExcludedDomains := ["reddit.com", "twitter.com", "x.com"]

  function CompanyNewsRequest(ticker: string, companyName: Option<string>): TavilyRequest {
    TavilyRequest(CompanyQuery(ticker, companyName), Basic, 5, [], ExcludedDomains, true)
  }

  const PositiveKeywords := ["upgrade", "beat", "growth", "strong", "positive"]
  const NegativeKeywords := ["downgrade", "miss", "decline", "weak", "concern", "warning"]

  /** Some keyword occurs in the lower-cased content or title. */
  predicate Mentions(keywords: seq<string>, h: Hit) {
    exists k | k in keywords :: Contains(Lower(h.content.GetOr("")), k) || Contains(Lower(h.title.GetOr("")), k)
  }

  predicate Positive(h: Hit) {
    Mentions(PositiveKeywords, h)
  }

  predicate Negative(h: Hit) {
    Mentions(NegativeKeywords, h)
  }

  /** The first `n` characters of the title, the empty string for a hit
      without one. */
  function Lead(h: Hit, n: nat): (s: string)
    ensures |s| <= n
    ensures h.title.Some? ==> |s| <= |h.title.value| && s == h.title.value[..|s|]
  {
    Take(h.title.GetOr(""), n)
  }

  datatype Hints = Hints(opportunities: seq<string>, threats: seq<string>)

  function AddHints(hints: Hints, h: Hit): Hints {
    Hints(hints.opportunities + (if Positive(h) then [Lead(h, 80)] else []),
          hints.threats + (if Negative(h) then [Lead(h, 80)] else []))
  }

  /** The title leads of the results satisfying `p`, in order. */
  function Leads(hits: seq<Hit>, p: Hit -> bool): (r: seq<string>)
    ensures |r| <= |hits|
    decreases |hits|
  {
    if |hits| == 0 then []
    else Leads(hits[..|hits| - 1], p) + (if p(hits[|hits| - 1]) then [Lead(hits[|hits| - 1], 80)] else [])
  }

  /** The hints of the results: the leads of those with a positive keyword
      and of those with a negative one. */
  function HintsOf(hits: seq<Hit>): (r: Hints)
    ensures |r.opportunities| <= |hits| && |r.threats| <= |hits|
  {
    Hints(Leads(hits, Positive), Leads(hits, Negative))
  }

  /** The loop over the results building `swot_hints`. */
  method CompanyHints(hits: seq<Hit>) returns (hints: Hints)
    ensures hints == HintsOf(hits)
  {
    var opportunities: seq<string> := [];
    var threats: seq<string> := [];
    for i := 0 to |hits|
      invariant opportunities == Leads(hits[..i], Positive)
      invariant threats == Leads(hits[..i], Negative)
    {
      assert hits[..i + 1][..i] == hits[..i];
      var h := hits[i];
      if Positive(h) {
        opportunities := opportunities + [Lead(h, 80)];
      }
      if Negative(h) {
        threats := threats + [Lead(h, 80)];
      }
    }
    assert hits[..|hits|] == hits;
    hints := Hints(opportunities, threats);
  }

  lemma {:induction false} LeadsMembership(hits: seq<Hit>, p: Hit -> bool, x: string)
    ensures x in Leads(hits, p) <==> exists i | 0 <= i < |hits| :: p(hits[i]) && Lead(hits[i], 80) == x
    decreases |hits|
  {
    if |hits| > 0 {
      var init := hits[..|hits| - 1];
      LeadsMembership(init, p, x);
      assert forall i | 0 <= i < |init| :: init[i] == hits[i];
    }
  }

  /** A title lead is an opportunity exactly when some result leading with it
      mentions a positive keyword, and a threat exactly when some such result
      mentions a negative one; one hit can be both. */
  lemma HintsMembership(hits: seq<Hit>, x: string)
    ensures x in HintsOf(hits).opportunities <==> exists i | 0 <= i < |hits| :: Positive(hits[i]) && Lead(hits[i], 80) == x
    ensures x in HintsOf(hits).threats <==> exists i | 0 <= i < |hits| :: Negative(hits[i]) && Lead(hits[i], 80) == x
  {
    LeadsMembership(hits, Positive, x);
    LeadsMembership(hits, Negative, x);
  }

  /** The search result with its hints, which exist only when there are
      results. */
  datatype CompanyNews = CompanyNews(search: Result<Found, SearchError>, hints: Option<Hints>)

  /** `search_company_news` */
  function CompanyNewsOf(hasKey: bool, ticker: string, companyName: Option<string>, send: Payload -> TavilyResponse): (r: CompanyNews)
    ensures r.hints.Some? <==> r.search.Ok? && |r.search.value.results| > 0
    ensures r.hints.Some? ==> r.hints.value == HintsOf(r.search.value.results)
    ensures r.search == TavilySearchOf(hasKey, CompanyNewsRequest(ticker, companyName), send)
  {
    var search := TavilySearchOf(hasKey, CompanyNewsRequest(ticker, companyName), send);
    if search.Ok? && |search.value.results| > 0 then CompanyNews(search, Some(HintsOf(search.value.results)))
    else CompanyNews(search, None)
  }

  /** The hints as written: a result that mentions a keyword but has no
      title takes the first 80 characters of `None`, and the TypeError ends
      the whole tool call (`None` here). */
  function HintsAsWritten(hits: seq<Hit>): Option<Hints>
    decreases |hits|
  {
    if |hits| == 0 then Some(Hints([], []))
    else
      match HintsAsWritten(hits[..|hits| - 1])
      case None => None
      case Some(hints) =>
        var h := hits[|hits| - 1];
        if (Positive(h) || Negative(h)) && h.title.None? then None else Some(AddHints(hints, h))
  }

  /** When every result has a title the code as written and the model agree. */
  lemma {:induction false} HintsAsWrittenAgrees(hits: seq<Hit>)
    requires forall i | 0 <= i < |hits| :: hits[i].title.Some?
    ensures HintsAsWritten(hits) == Some(HintsOf(hits))
    decreases |hits|
  {
    if |hits| > 0 {
      HintsAsWrittenAgrees(hits[..|hits| - 1]);
      assert AddHints(HintsOf(hits[..|hits| - 1]), hits[|hits| - 1]) == HintsOf(hits);
    }
  }

  /** One result with no title whose content mentions "strong" stops the
      code as written; the model files an empty lead as an opportunity. */
  lemma UntitledHitCounterexample(content: string)
    requires content == "strong"
    ensures var h := Hit(None, None, Some(content), None, None);
            HintsAsWritten([h]) == None && HintsOf([h]).opportunities == [""]
  {
    var h := Hit(None, None, Some(content), None, None);
    assert Lower(content) == content;
    assert OccursAt(Lower(content), "strong", 0);
    assert "strong" in PositiveKeywords;
    assert Positive(h);
    assert [h][..0] == [];
  }

  const DistressClause := "(\"going concern\" OR \"substantial doubt\" OR \"bankruptcy\" OR \"liquidity crisis\" OR \"financial distress\")"

  /** The going-concern query quotes the company name, or the ticker. */
  function GoingConcernQuery(ticker: string, companyName: Option<string>): (q: string)
    ensures var term := if companyName.Some? && companyName.value != "" then companyName.value else ticker;
            StartsWith(q, "\"" + term + "\"") && EndsWith(q, DistressClause)
  {
    var term := if companyName.Some? && companyName.value != "" then companyName.value else ticker;
    var head := "\"" + term + "\"";
    var q := head + " " + DistressClause;
    assert q[..|head|] == head;
    assert q[|q| - |DistressClause|..] == DistressClause;
    q
  }

  function GoingConcernRequest(ticker: string, companyName: Option<string>): TavilyRequest {
    TavilyRequest(GoingConcernQuery(ticker, companyName), Advanced, 10, [], ExcludedDomains, true)
  }

  datatype RiskKind = GoingConcern | Bankruptcy | SubstantialDoubt

  datatype RiskSignal = RiskSignal(kind: RiskKind, source: string)

  /** The signals of one result: "going concern" and "bankruptcy" in the
      content or the title, "substantial doubt" in the content only. */
  function HitSignals(h: Hit): (s: seq<RiskSignal>)
    ensures |s| <= 3
    ensures forall x | x in s :: x.source == Lead(h, 60)
    ensures (exists x | x in s :: x.kind == SubstantialDoubt) <==> Contains(Lower(h.content.GetOr("")), "substantial doubt")
  {
    var content := Lower(h.content.GetOr(""));
    var title := Lower(h.title.GetOr(""));
    var source := Lead(h, 60);
    (if Contains(content, "going concern") || Contains(title, "going concern") then [RiskSignal(GoingConcern, source)] else [])
    + (if Contains(content, "bankruptcy") || Contains(title, "bankruptcy") then [RiskSignal(Bankruptcy, source)] else [])
    + (if Contains(content, "substantial doubt") then [RiskSignal(SubstantialDoubt, source)] else [])
  }

  function RiskSignals(hits: seq<Hit>): (s: seq<RiskSignal>)
    ensures |s| <= 3 * |hits|
    decreases |hits|
  {
    if |hits| == 0 then [] else RiskSignals(hits[..|hits| - 1]) + HitSignals(hits[|hits| - 1])
  }

  /** One pass of the loop over the results: the signals of `h` appended. */
  method AddHitSignals(signals: seq<RiskSignal>, h: Hit) returns (r: seq<RiskSignal>)
    ensures r == signals + HitSignals(h)
  {
    r := signals;
    var content := Lower(h.content.GetOr(""));
    var title := Lower(h.title.GetOr(""));
    var source := Lead(h, 60);
    if Contains(content, "going concern") || Contains(title, "going concern") {
      r := r + [RiskSignal(GoingConcern, source)];
    }
    if Contains(content, "bankruptcy") || Contains(title, "bankruptcy") {
      r := r + [RiskSignal(Bankruptcy, source)];
    }
    if Contains(content, "substantial doubt") {
      r := r + [RiskSignal(SubstantialDoubt, source)];
    }
  }

  /** The loop over the results collecting `risk_signals`. */
  method CollectRiskSignals(hits: seq<Hit>) returns (signals: seq<RiskSignal>)
    ensures signals == RiskSignals(hits)
  {
    signals := [];
    for i := 0 to |hits|
      invariant signals == RiskSignals(hits[..i])
    {
      assert hits[..i + 1][..i] == hits[..i];
      signals := AddHitSignals(signals, hits[i]);
    }
    assert hits[..|hits|] == hits;
  }

  datatype RiskLevel = HighRisk | MediumRisk | NoRisk

  function RiskLevelOf(signals: nat): (l: RiskLevel)
    ensures l == HighRisk <==> signals >= 3
    ensures l == MediumRisk <==> 1 <= signals < 3
    ensures l == NoRisk <==> signals == 0
  {
    if signals >= 3 then HighRisk else if signals >= 1 then MediumRisk else NoRisk
  }

  /** The threat `swot_implications` lists: news coverage of financial
      distress in this many signals. */
  datatype DistressCoverage = DistressCoverage(signals: nat)

  datatype RiskAssessment = RiskAssessment(level: RiskLevel, signalsFound: nat, signals: seq<RiskSignal>,
                                           threats: seq<DistressCoverage>)

  function AssessmentOf(hits: seq<Hit>): (a: RiskAssessment)
    ensures |a.signals| <= 5 && |a.signals| <= |RiskSignals(hits)| && a.signals == RiskSignals(hits)[..|a.signals|]
    ensures a.signalsFound == |RiskSignals(hits)| && a.level == RiskLevelOf(a.signalsFound)
    ensures a.threats == [] <==> a.signalsFound == 0
    ensures a.threats != [] ==> a.threats == [DistressCoverage(a.signalsFound)]
  {
    var signals := RiskSignals(hits);
    RiskAssessment(RiskLevelOf(|signals|), |signals|, Take(signals, 5),
                   if |signals| > 0 then [DistressCoverage(|signals|)] else [])
  }

  datatype GoingConcernNews = GoingConcernNews(search: Result<Found, SearchError>, assessment: Option<RiskAssessment>)

  /** `search_going_concern_news`: an assessment for every successful search,
      with no risk when nothing matched. */
  function GoingConcernNewsOf(hasKey: bool, ticker: string, companyName: Option<string>, send: Payload -> TavilyResponse): (r: GoingConcernNews)
    ensures r.assessment.Some? <==> r.search.Ok?
    ensures r.assessment.Some? ==> r.assessment.value == AssessmentOf(r.search.value.results)
    ensures r.search == TavilySearchOf(hasKey, GoingConcernRequest(ticker, companyName), send)
  {
    var search := TavilySearchOf(hasKey, GoingConcernRequest(ticker, companyName), send);
    GoingConcernNews(search, if search.Ok? then Some(AssessmentOf(search.value.results)) else None)
  }

  /** Results that mention none of the phrases leave the risk at none. */
  lemma {:induction false} QuietResultsNoRisk(hits: seq<Hit>)
    requires forall i | 0 <= i < |hits| :: HitSignals(hits[i]) == []
    ensures AssessmentOf(hits).level == NoRisk && AssessmentOf(hits).threats == []
    decreases |hits|
  {
    assert RiskSignals(hits) == [] by {
      RiskSignalsEmpty(hits);
    }
  }

  lemma {:induction false} RiskSignalsEmpty(hits: seq<Hit>)
    requires forall i | 0 <= i < |hits| :: HitSignals(hits[i]) == []
    ensures RiskSignals(hits) == []
    decreases |hits|
  {
    if |hits| > 0 {
      RiskSignalsEmpty(hits[..|hits| - 1]);
    }
  }

  /** The signals as written: a matching result without a title takes the
      first 60 characters of `None` and the tool call fails (`None`). */
  function RiskSignalsAsWritten(hits: seq<Hit>): Option<seq<RiskSignal>>
    decreases |hits|
  {
    if |hits| == 0 then Some([])
    else
      match RiskSignalsAsWritten(hits[..|hits| - 1])
      case None => None
      case Some(s) =>
        var h := hits[|hits| - 1];
        if HitSignals(h) != [] && h.title.None? then None else Some(s + HitSignals(h))
  }

  lemma {:induction false} RiskSignalsAsWrittenAgrees(hits: seq<Hit>)
    requires forall i | 0 <= i < |hits| :: hits[i].title.Some?
    ensures RiskSignalsAsWritten(hits) == Some(RiskSignals(hits))
    decreases |hits|
  {
    if |hits| > 0 {
      RiskSignalsAsWrittenAgrees(hits[..|hits| - 1]);
    }
  }

  /** An untitled result whose content reports bankruptcy stops the code as
      written; the model counts it as one signal. */
  lemma UntitledDistressCounterexample(content: string)
    requires content == "bankruptcy"
    ensures var h := Hit(None, None, Some(content), None, None);
            RiskSignalsAsWritten([h]) == None && AssessmentOf([h]).signalsFound >= 1
  {
    var h := Hit(None, None, Some(content), None, None);
    assert Lower(content) == content;
    assert OccursAt(Lower(content), "bankruptcy", 0);
    assert HitSignals(h) != [];
    assert [h][..0] == [];
  }
}
