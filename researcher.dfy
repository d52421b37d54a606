/** The API graph's Researcher node: works out the ticker, fetches the six
    baskets (directly or through the A2A research server), tags where the data
    came from, and accepts partial failure but not total failure. */
module Researcher {
  import opened Wrappers
  import opened Text
  import opened AgentStates
  import opened Workflows
  import Editor

  /** `company.upper().replace(" ", "")[:5]`, the ticker used when no lookup succeeds. */
  function FallbackTicker(company: string): (t: string)
    ensures |t| <= 5 && ' ' !in t
    ensures forall i | 0 <= i < |t| :: !('a' <= t[i] <= 'z')
    ensures |t| <= |RemoveChar(Upper(company), ' ')| && t == RemoveChar(Upper(company), ' ')[..|t|]
    ensures |t| == 5 || t == RemoveChar(Upper(company), ' ')
  {
    var upper := Upper(company);
    var squeezed := RemoveChar(upper, ' ');
    assert forall i | 0 <= i < |upper| :: !('a' <= upper[i] <= 'z');
    assert forall x | x in squeezed :: !('a' <= x <= 'z');
    var t := SliceTo(squeezed, 5);
    assert forall i | 0 <= i < |t| :: t[i] in squeezed;
    t
  }

  /** Python truthiness of an optional string. */
  predicate Truthy(s: Option<string>) {
    s.Some? && s.value != ""
  }

  /** The ticker `_fetch_mcp_data` uses: the one given, else the lookup's
      answer, else the fallback. */
  function ResolveTicker(company: string, given: Option<string>, lookup: string -> Option<string>): (t: string)
    ensures Truthy(given) ==> t == given.value
    ensures !Truthy(given) && Truthy(lookup(company)) ==> t == lookup(company).value
    ensures !Truthy(given) && !Truthy(lookup(company)) ==> t == FallbackTicker(company)
    ensures t != "" || (!Truthy(given) && FallbackTicker(company) == "")
  {
    if Truthy(given) then given.value
    else if Truthy(lookup(company)) then lookup(company).value
    else FallbackTicker(company)
  }

  /** A ticker already in the state makes the lookup irrelevant. */
  lemma GivenTickerSkipsLookup(company: string, given: Option<string>, lookup1: string -> Option<string>,
                               lookup2: string -> Option<string>)
    requires Truthy(given)
    ensures ResolveTicker(company, given, lookup1) == ResolveTicker(company, given, lookup2)
  {
  }

  /** The parts of the aggregated fetch result the node reads: the truthiness
      of `_cache_info.cached`, `sources_available`, `sources_failed` (absent:
      `None`) and the JSON dump of the whole result. */
  datatype FetchResult = FetchResult(cached: bool, sourcesAvailable: seq<string>,
                                     sourcesFailed: Option<seq<string>>, dump: string)

  /** The `data_source` tag. */
  function DataSourceTag(a2aMode: bool, f: FetchResult): (tag: string)
    ensures a2aMode ==> tag == "a2a"
    ensures !a2aMode ==> (tag == "cached" <==> f.cached) && (tag == "live" <==> !f.cached)
  {
    if a2aMode then "a2a" else if f.cached then "cached" else "live"
  }

  function FailurePrefix(company: string): string {
    "Research failed for " + company + ": "
  }

  function AllFailedMessage(company: string): string {
    "All MCP servers failed for " + company + ". Check API configurations."
  }

  /** The ticker the chosen mode fetches with: A2A mode looks the company up
      afresh, ignoring the state's ticker. */
  function ModeTicker(a2aMode: bool, company: string, given: Option<string>, lookup: string -> Option<string>): string {
    if a2aMode then ResolveTicker(company, None, lookup) else ResolveTicker(company, given, lookup)
  }

  /** `researcher_node(state, workflow_id, progress_store)`. `lookup` is
      `get_ticker`; `directFetch` and `a2aFetch` are the two fetch paths,
      given the company and the ticker, failing with the exception's message. */
  method ResearcherNode(state: AgentState, workflowId: string, store: WorkflowRegistry?, a2aMode: bool,
                        lookup: string -> Option<string>,
                        directFetch: (string, string) -> Result<FetchResult, string>,
                        a2aFetch: (string, string) -> Result<FetchResult, string>)
    returns (r: Result<AgentState, NodeError>)
    modifies state`dataSource, state`rawData, state`sourcesFailed, store
    ensures old(Editor.Tracking(workflowId, store)) && workflowId !in old(store.workflows) ==>
      r == Err(KeyError(workflowId)) && unchanged(state) && unchanged(store)
    ensures old(Editor.Tracking(workflowId, store)) && workflowId in old(store.workflows) ==>
      store.workflows == old(store.workflows)[workflowId := old(store.workflows)[workflowId].(
        currentStep := "Researcher", revisionCount := state.revisionCount.GetOr(0), score := state.score.GetOr(0.0))]
    ensures !old(Editor.Tracking(workflowId, store)) && store != null ==> unchanged(store)
    ensures !(old(Editor.Tracking(workflowId, store)) && workflowId !in old(store.workflows)) ==>
      var company := state.companyName;
      var ticker := ModeTicker(a2aMode, company, state.ticker, lookup);
      var fetched := if a2aMode then a2aFetch(company, ticker) else directFetch(company, ticker);
      match fetched
      case Err(e) =>
        r == Err(RuntimeError(FailurePrefix(company) + e)) && unchanged(state)
      case Ok(f) =>
        state.dataSource == Some(DataSourceTag(a2aMode, f))
        && (|f.sourcesAvailable| > 0 ==>
              r == Ok(state) && state.rawData == Some(f.dump)
              && state.sourcesFailed == Some(f.sourcesFailed.GetOr([])))
        && (|f.sourcesAvailable| == 0 ==>
              r == Err(RuntimeError(FailurePrefix(company) + AllFailedMessage(company)))
              && state.rawData == old(state.rawData) && state.sourcesFailed == old(state.sourcesFailed))
  {
    var company := state.companyName;
    var ticker := state.ticker;
    if workflowId != "" && store != null && |store.workflows| > 0 {
      if workflowId !in store.workflows {
        return Err(KeyError(workflowId));
      }
      store.UpdateProgress(workflowId, "Researcher", state.revisionCount.GetOr(0), state.score.GetOr(0.0));
    }
    var fetched: Result<FetchResult, string>;
    if a2aMode {
      fetched := a2aFetch(company, ResolveTicker(company, None, lookup));
    } else {
      fetched := directFetch(company, ResolveTicker(company, ticker, lookup));
    }
    if fetched.Err? {
      return Err(RuntimeError(FailurePrefix(company) + fetched.error));
    }
    var result := fetched.value;
    if a2aMode {
      state.dataSource := Some("a2a");
    } else if result.cached {
      state.dataSource := Some("cached");
    } else {
      state.dataSource := Some("live");
    }
    if |result.sourcesAvailable| > 0 {
      state.rawData := Some(result.dump);
      state.sourcesFailed := Some(result.sourcesFailed.GetOr([]));
    } else {
      return Err(RuntimeError(FailurePrefix(company) + AllFailedMessage(company)));
    }
    r := Ok(state);
  }
}
