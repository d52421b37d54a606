# A2A strategy agent — a Dafny model of its core

This project models the logic at the centre of the A2A strategy agent, a system that drafts a SWOT analysis of a listed company. It collects market data from six "basket" servers, lets a language model write and criticise the report, and serves the result over an HTTP API. The model keeps the source's own structure, one module per core file:

- **The self-correcting loop.** The graph runs Researcher → Analyst → Critic, then either ends or goes Editor → Critic again (`GraphCyclic`). The exit rule is in `Conditions`. The nodes mutate one state dictionary, modelled as the class `AgentStates.AgentState`. The nodes are `Critic` (grade and fallback), `EditorV2` and `Editor` (count the revision and report progress) and `Researcher` (ticker fallback, partial versus total failure, data-source tag). The language-model calls are functions passed in. The loop is proved to run the Editor at most three times and the Critic at most four.
- **The workflow registry** of the API (`Workflows`). It is a class holding the map from workflow id to record. Its methods start an analysis, run it through "starting" → "running" → "completed" | "error", append to the activity log and report progress. The status, result and health endpoints read the registry. `SwotParser` is the line-oriented reader that turns the final report into four lists.
- **The US stock listings.** `StockListings` holds the common-stock filter over the listed regular expressions, the parser for the two pipe-delimited NASDAQ Trader files and the first-occurrence de-duplication. `StockSearch` holds the ranked search and `<mark>` highlighting.
- **The six data baskets.** Each basket classifies its metrics by fixed thresholds into SWOT categories. It routes them into a summary (`Swot`) and sums them up:
  - `Financials`: SEC filings, the latest 10-K fact, 8-K items, going-concern risk, ownership forms and the fundamentals rules;
  - `Macro`: FRED series and the macro outlook;
  - `Valuation`: five price multiples;
  - `Volatility`: VIX with FRED → Yahoo fallback, beta, historical and implied volatility;
  - `Sentiment`: Finnhub, Reddit and YouTube scores and the weighted composite;
  - `News`: Tavily search, keyword hints and distress signals.
- **The Hugging Face Spaces app** (`HfSpaces`): the Markdown section extractor and the score rule.

`Wrappers` (Option, Result, a filter-map) and `Text` (Python's string primitives written out: `lower`, `strip`, `split`, `find`, `in`, `count`) are shared helpers.

HTTP responses, language-model replies, clocks, fresh ids and the VADER scorer are parameters of the operations that use them. Floating-point numbers are `real`. Where the source loops or mutates, the model is a method whose `ensures` ties the new state or result to a specification function, and the function's properties are lemmas.

## Model

| member | source | states |
|---|---|---|
| Conditions.ShouldContinue | A2A-strategy-agent_v2/src/utils/conditions.py:3-22 | "exit" whenever the score is at least 7 or the revision count at least 3; "retry" exactly when both are below their limits, reading an absent key as 0, so an empty state retries |
| AgentStates.AgentState.Initial | A2A-strategy-agent_v2/src/graph_cyclic.py:61-69 | the run starts with the company name, revision count 0, score 0, no raw data, no draft, no critique and no messages |
| Critic.AssignedScore | A2A-strategy-agent_v2/src/nodes/critic.py:50-61 | a parsed reply gives its "score", or 0 when that field is absent; an unparsable reply gives the fallback 5 |
| Critic.AssignedCritique | A2A-strategy-agent_v2/src/nodes/critic.py:50-61 | a parsed reply gives its "reasoning", or "No reasoning provided"; an unparsable reply gives "Evaluation failed - could not parse response" |
| Critic.CriticNode | A2A-strategy-agent_v2/src/nodes/critic.py:50-63 | the Critic writes exactly the critique and the score of its judgement of the current draft; the draft and the revision count are not touched |
| EditorV2.NextRevision | A2A-strategy-agent_v2/src/nodes/editor.py:38 | the new revision count is the old one, an absent one counting as 0, plus one |
| EditorV2.EditorNode | A2A-strategy-agent_v2/src/nodes/editor.py:36-40 | the draft becomes the model's revision of the old draft and critique, the revision count goes up by one, nothing else is written and the same state object is returned |
| Editor.EditorNode | src/nodes/editor.py:5-56 | the draft and revision count are updated as in the v2 editor; with tracking on, the node makes two progress writes at step "Editor", the first with the count before the increment and the second with the count after it, and the entry is what those writes leave; an unknown tracked id raises KeyError before any write, and without tracking nothing is written |
| GraphCyclic.Next | A2A-strategy-agent_v2/src/graph_cyclic.py:21-36 | the node run next is always one of the graph's declared successors |
| GraphCyclic.EdgesAreTaken | A2A-strategy-agent_v2/src/graph_cyclic.py:21-36 | every declared edge is taken on some route, and after Critic "exit" ends the run while "retry" goes to the Editor |
| GraphCyclic.PredecessorOnCycle | A2A-strategy-agent_v2/src/graph_cyclic.py:21-36 | every node of a closed path has a predecessor on the path |
| GraphCyclic.SuccessorOnCycle | A2A-strategy-agent_v2/src/graph_cyclic.py:21-36 | every node of a closed path has a successor on the path |
| GraphCyclic.OnlyCycle | A2A-strategy-agent_v2/src/graph_cyclic.py:21-36 | every node of a closed path is Critic or Editor: Critic → Editor → Critic is the only cycle |
| GraphCyclic.RunSelfCorrectingWorkflow | A2A-strategy-agent_v2/src/graph_cyclic.py:26-36 | the run ends with the Editor run at most 3 times and the Critic once more than the Editor, the final revision count equal to the Editor runs and the exit rule saying "exit"; the Editor never runs exactly when the first score is at least 7, and replies that never parse run the Editor 3 times |
| Researcher.FallbackTicker | src/nodes/researcher.py:31-33 | the fallback ticker has at most 5 characters, no space and no lower-case letter, and is the start of the upper-cased, space-free name (all of it when shorter than 5) |
| Researcher.ResolveTicker | src/nodes/researcher.py:28-33 | a non-empty given ticker is used; otherwise the lookup's non-empty answer; otherwise the fallback; the result is empty only when the fallback is |
| Researcher.GivenTickerSkipsLookup | src/nodes/researcher.py:28-29 | with a ticker already in the state the lookup's answer makes no difference |
| Researcher.DataSourceTag | src/nodes/researcher.py:92-107 | "a2a" in A2A mode; in direct mode "cached" exactly when the result's cache flag is set and "live" otherwise |
| Researcher.ResearcherNode | src/nodes/researcher.py:79-125 | with tracking the progress entry gets step "Researcher" and the state's counters before the fetch (an unknown id raises KeyError untouched); a fetch with sources stores the raw data, the failed sources (default []) and the tag; a fetch without sources or an exception fails with "Research failed for …" |
| Swot.Shown | mcp-servers/macro-basket/server.py:175 | a value is reported exactly when it is present and non-zero, and then unchanged |
| Swot.Or | mcp-servers/valuation-basket/server.py:128-132 | Python's `or`: the first value when it is present and non-zero, the second otherwise |
| Swot.Summary.Add | mcp-servers/volatility-basket/server.py:417-423 | appending puts the entry at the end of the chosen list, leaves the other three lists alone and grows the summary by one |
| Swot.EmptySummary | mcp-servers/volatility-basket/server.py:404-409 | all four lists start empty |
| Swot.FullRouting | mcp-servers/volatility-basket/server.py:414-423 | STRENGTH, WEAKNESS and OPPORTUNITY go to their own lists, THREAT and SEVERE_THREAT both go to threats, and NEUTRAL goes nowhere |
| Swot.Route | mcp-servers/volatility-basket/server.py:410-423 | the routing loop computes the routing fold over the metrics |
| Swot.RouteMembership | mcp-servers/volatility-basket/server.py:410-423 | an entry is in a list exactly when some successful metric routes it there |
| Swot.RouteSizeBound | mcp-servers/volatility-basket/server.py:410-423 | each metric adds at most one entry |
| Swot.RouteUnselectedEmpty | mcp-servers/volatility-basket/server.py:410-423 | a list that the routing table never selects stays empty |
| Swot.RouteAllFailed | mcp-servers/volatility-basket/server.py:411-412 | when every metric carries an error the summary is empty |
| Swot.RouteStep | mcp-servers/volatility-basket/server.py:410-423 | one more metric extends the summary by exactly one routing step |
| Swot.RouteUnusedEmpty | mcp-servers/volatility-basket/server.py:410-423 | a list no successful metric is routed to stays empty |
| SwotParser.Header | api/main.py:126-134 | a line switches section exactly when its lower-case form contains one of 'strength', 'weakness', 'opportunit', 'threat', and the first of them in that order that it contains picks the section |
| SwotParser.ParseSwotText | api/main.py:109-141 | the parsing loop computes the line-by-line fold over the report's lines |
| SwotParser.ItemIsSlice | api/main.py:137 | an item is a contiguous piece of its line |
| SwotParser.ItemOfNonHeaderIsClean | api/main.py:135-139 | an item cut from a line that switches no section is non-empty and names no section |
| SwotParser.ItemsAreClean | api/main.py:121-139 | every collected item is non-empty, names no section (so header lines are never items) and comes from a dash line of the report |
| SwotParser.ItemsBoundedByLines | api/main.py:121-139 | each line adds at most one item |
| SwotParser.NothingBeforeAHeader | api/main.py:118-135 | with no header line, nothing is collected: items need a current section |
| SwotParser.CurrentIsLatestHeader | api/main.py:121-134 | after some lines the current section is the one named by the most recent header line among them |
| SwotParser.ItemPlacement | api/main.py:121-139 | an item is in a section's list exactly when some non-empty dash line yields it and the most recent header before that line names that section |
| Workflows.NameOnlyRequest | api/main.py:69-72 | a request naming only the company has an empty ticker and the focus "Competitive Position" |
| Workflows.IdleBasketsCoverAll | api/main.py:241-248 | the six baskets all start "idle" |
| Workflows.InitialRecord | api/main.py:232-249 | a new record is "starting" at step "input", with revision count 0, score 0, an empty activity log, the request's fields, all six baskets "idle" and no result or error |
| Workflows.Field.GetOr | api/main.py:198-215 | `result.get(key, default)`: the default for a missing key, Python `None` for a null value, the value otherwise |
| Workflows.GetWorkflowStatus | api/main.py:262-278 | an unknown id is not-found (404); a known one reports its status, current step, revision count, score, activity log and basket status, and no provider or data source, since no write ever stores those two keys on a record |
| Workflows.GetWorkflowResult | api/main.py:281-295 | an unknown id is not-found (404); a record that is not "completed" is refused (400) with its status; a completed one answers with its stored result |
| Workflows.HealthCheck | api/main.py:298-304 | the status is "ok" and the count of active workflows is the number of records |
| Workflows.WorkflowRegistry.constructor | api/main.py:50 | the registry starts empty |
| Workflows.WorkflowRegistry.AddActivityLog | api/main.py:144-153 | a known id gets exactly one entry appended at the end of its log, all earlier entries and all other records unchanged; an unknown id changes nothing |
| Workflows.WorkflowRegistry.UpdateProgress | src/nodes/editor.py:11-16 | the nodes' progress write changes only the step, revision count and score of that one record |
| Workflows.Progressed | api/main.py:191-195 | the nodes' progress writes to the shared record during the run: the last write decides the step, revision count and score, and no other field changes |
| Workflows.WorkflowRegistry.RunWorkflowBackground | api/main.py:156-223 | when the graph import raises, only the status "error" and the message are written; otherwise the record is the run started from it, then changed by the nodes' progress writes in order, then settled by the outcome; an unknown id leaves the registry alone |
| Workflows.WorkflowRegistry.MarkRunning | api/main.py:162-175 | before the graph runs, only that record changes: it is "running" at step "researcher", its log gains the start entry and all six baskets are "idle" |
| Workflows.WorkflowRegistry.ApplyProgress | api/main.py:191-195 | the nodes' progress writes during the run change only that record, as the writes applied in order leave it |
| Workflows.WorkflowRegistry.RecordOutcome | api/main.py:195-223 | the graph's outcome settles only that record: "completed" with the result, or "error" with the message |
| Workflows.WorkflowRegistry.StartAnalysis | api/main.py:226-259 | the fresh id is returned, the registry gains exactly that one record, and it holds the initial record carried through the background run |
| Workflows.RunEnds | api/main.py:158-223 | every run ends "completed" (exactly when the graph is imported and returns a usable draft) or "error" with a message and the old result; the start entry is appended to the log exactly when the import succeeded, and the request's fields are kept |
| Workflows.ImportFailureKeepsRecord | api/main.py:158-223 | when the graph import raises, the record becomes "error" with the message, and its step, counters, score, log, basket statuses and result stay as they were |
| Workflows.CompletedResult | api/main.py:197-217 | a completed run stores the parsed report, the report itself, its length and the graph's counters |
| Workflows.ResultAfterStart | api/main.py:232-295 | right after starting, the result endpoint answers with the result exactly when the graph was imported and the run completed, and with 400 and the status otherwise |
| Workflows.FailedRunKeepsProgress | api/main.py:191-223 | a run whose graph raised is "error" with the message and keeps the step, revision count and score of the last progress write, or the starting ones when no node wrote |
| StockListings.ExcludedNamesRejected | src/stock_listings.py:52-59 | a name whose upper-cased form matches any excluded pattern is never a common stock, whatever its symbol |
| StockListings.ShareClassSymbols | src/stock_listings.py:61-65 | a share-class symbol such as BRK.A passes the special-character rule while BRK-A and AB.CD do not |
| StockListings.AbcIsCommonStock | src/stock_listings.py:52-71 | a three-letter name with no excluded pattern under a plain symbol is a common stock, so names of length 3 pass the length rule |
| StockListings.ExchangeName | src/stock_listings.py:112-119 | the other-listed file's codes A, N, P, Z and V name AMEX, NYSE, NYSE ARCA, BATS and IEX; any other code stands for itself, and only A, N and P (or the names themselves) give the three major exchanges |
| StockListings.RowIsFiltered | src/stock_listings.py:83-133 | a parsed row is a common stock, on NASDAQ for the NASDAQ-listed file and on NYSE, AMEX or NYSE ARCA for the other-listed file; the "File Creation Time" footer is never a row |
| StockListings.EtfAndTestRowsSkipped | src/stock_listings.py:95-110 | rows flagged ETF or Test Issue, in either file's column layout, never become listings |
| StockListings.ParseNasdaqFile | src/stock_listings.py:74-135 | the parsing loop computes the rows of the data lines (the stripped content's lines after the header), in order |
| StockListings.RowsAreFiltered | src/stock_listings.py:83-133 | every parsed listing is a common stock on an exchange its file may contribute, and there are at most as many listings as data lines |
| StockListings.NasdaqScanAgrees | src/stock_listings.py:91-99 | on the NASDAQ-listed file the exchange is never reassigned, so the parser as written yields exactly the corrected rows |
| StockListings.OtherScanAgrees | src/stock_listings.py:101-123 | on an other-listed file whose lines neither raise nor carry the code "NASDAQ", the parser as written yields exactly the corrected rows |
| StockListings.RebindingFirstLine | src/stock_listings.py:113-123 | an other-listed row with code "NASDAQ" is dropped, yet the loop as written carries "NASDAQ" on as its exchange |
| StockListings.RebindingSecondLine | src/stock_listings.py:91-99 | a later row with code Q is then read with the NASDAQ layout, bypassing the exchange filter, and kept |
| StockListings.RebindingSecondRow | src/stock_listings.py:121-123 | that row is on no major exchange, so the corrected parser drops it |
| StockListings.RebindingCounterexample | src/stock_listings.py:91-123 | two such lines make the parser as written list a NASDAQ stock that the other-listed file must not yield, where the corrected parser yields nothing |
| StockListings.RebindingFile | src/stock_listings.py:74-135 | the concrete file `RebindingContent` read as the other-listed file gives one listing as written and none corrected |
| StockListings.ShortLineCounterexample | src/stock_listings.py:87-105 | a two-field line of the other-listed file passes the field-count check and then raises IndexError at `fields[2]`; the corrected parser skips it |
| StockListings.ShortLineFile | src/stock_listings.py:74-135 | the concrete file `ShortLineContent` read as the other-listed file raises as written and yields no listing corrected |
| StockListings.DedupListings | src/stock_listings.py:166-174 | the de-duplication loop computes the first-occurrence de-duplication by symbol |
| StockListings.DedupSymbols | src/stock_listings.py:166-174 | de-duplication loses no symbol |
| StockListings.DedupUnique | src/stock_listings.py:166-174 | after de-duplication no symbol occurs twice |
| StockListings.DedupKeepsFirst | src/stock_listings.py:166-174 | a listing is kept exactly when it is the first listing of its symbol |
| StockListings.DedupOfUnique | src/stock_listings.py:166-174 | a list without repeated symbols is left as it is |
| StockListings.DedupIdempotent | src/stock_listings.py:166-174 | de-duplicating twice changes nothing |
| StockListings.FetchListingsProperties | src/stock_listings.py:138-174 | the combined list of NASDAQ-listed then other-listed rows holds one listing per symbol, covers every symbol, and keeps exactly the first listing seen of each |
| StockSearch.Range | src/stock_listings.py:321-332 | `list(range(a, b))` is the run of consecutive integers from a below b, empty when b ≤ a |
| StockSearch.Classify | src/stock_listings.py:310-343 | a listing matches exactly when some match kind holds; the kind reported holds and no kind of higher priority does (exact symbol, symbol prefix, symbol contains, name prefix, name contains), with as many highlight indices as the query has characters |
| StockSearch.MatchesSound | src/stock_listings.py:310-350 | every hit collected is the classification of one of the listings |
| StockSearch.MatchesComplete | src/stock_listings.py:310-350 | every listing that matches yields its hit |
| StockSearch.MatchesLength | src/stock_listings.py:310-350 | there are at most as many hits as listings |
| StockSearch.MatchesSoundComplete | src/stock_listings.py:310-350 | hits are exactly the classifications of matching listings, at most one per listing |
| StockSearch.KeyLeTotal | src/stock_listings.py:361-365 | any two hits are comparable under the sort key (priority, then market cap descending, then symbol) |
| StockSearch.KeyLeTrans | src/stock_listings.py:361-365 | the sort key order is transitive |
| StockSearch.InsertPermutes | src/stock_listings.py:361-365 | inserting a hit into the sorted list adds exactly that hit |
| StockSearch.InsertSorted | src/stock_listings.py:361-365 | inserting into a sorted list keeps it sorted |
| StockSearch.SortHitsCorrect | src/stock_listings.py:361-365 | the sorted hits are in key order and are a permutation of the hits |
| StockSearch.SearchProperties | src/stock_listings.py:303-367 | an empty or too-short query gives []; there are at most max_results hits, in key order, each the classification of one of the listings; when all matches fit, every match is returned |
| StockSearch.SearchStocks | src/stock_listings.py:280-367 | the search loop, the sort and the cut compute the search, with the same guarantees |
| StockSearch.BlankQueryMatchesEverySymbol | src/stock_listings.py:303-326 | a query of blanks passes the emptiness check, strips to "" and so matches every listing with a symbol as a symbol prefix |
| StockSearch.HighlightUnmatched | src/stock_listings.py:382-389 | an empty query, or one that does not occur in any letter case, leaves the text as it is |
| StockSearch.HighlightMatched | src/stock_listings.py:385-394 | otherwise the first case-insensitive occurrence of the query is the part wrapped in `<mark>` tags |
| StockSearch.HighlightStart | src/stock_listings.py:391-394 | the highlight starts at the first occurrence of the lower-cased query in the lower-cased text |
| StockSearch.UnmarkAt | src/stock_listings.py:394 | wrapping any slice of a text without `<` in the tags and removing the tags gives the text back |
| StockSearch.UnmarkHighlightMatched | src/stock_listings.py:391-394 | removing the tags from a highlighted text without `<` gives the original |
| StockSearch.UnmarkHighlight | src/stock_listings.py:382-394 | on a text without `<`, removing the tags from the highlight gives the original text back, for every query |
| Financials.FormatCik | mcp-servers/financials-basket/server.py:62-64 | the formatted CIK has length 10, or its own length when that is at least 10, and a CIK of 10 or more characters is unchanged |
| Financials.FormatCikIdempotent | mcp-servers/financials-basket/server.py:62-64 | formatting an already formatted CIK changes nothing |
| Financials.FormatCikKeepsNumber | mcp-servers/financials-basket/server.py:62-64 | padding a CIK of digits gives digits with the same numeric value, so it names the same registrant |
| Financials.Annual | mcp-servers/financials-basket/server.py:108 | the annual facts are exactly the entries whose form is "10-K" |
| Financials.InsertByEndPermutes | mcp-servers/financials-basket/server.py:113 | inserting an entry into the sorted list adds exactly that entry |
| Financials.InsertByEndDescending | mcp-servers/financials-basket/server.py:113 | inserting into a list sorted latest-first keeps it sorted |
| Financials.SortByEndCorrect | mcp-servers/financials-basket/server.py:113 | the sort orders by end date, latest first, and is a permutation of the entries |
| Financials.SortHeadIsFirstLatest | mcp-servers/financials-basket/server.py:113-116 | because the sort is stable, its first entry is the earliest-listed entry among those with the greatest end date |
| Financials.FirstLatestIsGreatest | mcp-servers/financials-basket/server.py:113-116 | that entry's end date is the greatest, and every entry before it ends strictly earlier |
| Financials.GetLatestValueChoice | mcp-servers/financials-basket/server.py:95-123 | no entries for the unit give None; otherwise the answer is the first-listed entry with the greatest end date, chosen from the 10-K entries when there are any and from all entries otherwise |
| Financials.GrowthGuards | mcp-servers/financials-basket/server.py:129-148 | fewer than years+1 10-K facts give no growth; growth is only computed for years ≥ 1, from positive endpoint values, the latest being the 10-K entry with the greatest end date |
| Financials.PieceItem | mcp-servers/financials-basket/server.py:450-457 | a comma-separated piece yields an item exactly when its stripped form is a code of the 8-K table, and then that code's item |
| Financials.KnownItemsMembership | mcp-servers/financials-basket/server.py:450-457 | an item is kept exactly when some piece strips to its code |
| Financials.ParseItemsMembership | mcp-servers/financials-basket/server.py:449-457 | an item is parsed exactly when a stripped piece of the items column is a code of the table; unknown codes are dropped |
| Financials.ParseItemsHighPriority | mcp-servers/financials-basket/server.py:447-459 | a filing is high priority exactly when one of its stripped pieces is a high-priority code |
| Financials.ParseItemCodes | mcp-servers/financials-basket/server.py:446-459 | the inner loop computes the parsed items and the high-priority flag |
| Financials.EventsAreFirstEightK | mcp-servers/financials-basket/server.py:441-471 | the loop keeps the first `limit` 8-K filings, in filing order |
| Financials.HighOfMembership | mcp-servers/financials-basket/server.py:472-473 | an event is high priority exactly when it is one of the events and flagged, and there are at most as many as events |
| Financials.HighOfPrefix | mcp-servers/financials-basket/server.py:472-473 | the high-priority events of a prefix are a prefix of the high-priority events: the order is kept |
| Financials.ImplicationOf | mcp-servers/financials-basket/server.py:487-500 | an item code has an implication exactly when it is high priority, and every implication is a threat or a weakness |
| Financials.AddItemsMembership | mcp-servers/financials-basket/server.py:482-500 | an entry is in a list after one event's items exactly when it was there or one of the items implies it |
| Financials.AddEventsMembership | mcp-servers/financials-basket/server.py:481-500 | an entry is implied exactly when some item of some chosen event implies it |
| Financials.AddEventsOnlyAdverse | mcp-servers/financials-basket/server.py:476-500 | material events never yield strengths or opportunities |
| Financials.EventImplications | mcp-servers/financials-basket/server.py:481-500 | the nested loops compute the implications of the given events |
| Financials.FetchMaterialEvents | mcp-servers/financials-basket/server.py:430-512 | the loop over the submissions and the implication loops compute the material-events report |
| Financials.MaterialEventsSelection | mcp-servers/financials-basket/server.py:441-508 | the report holds the first `limit` 8-K filings in order (at most `limit`); its high-priority events are exactly its flagged ones, in order, and only the first 5 are reported |
| Financials.MaterialEventsImplications | mcp-servers/financials-basket/server.py:475-509 | at most 5 events drive the implications, which hold no strengths or opportunities and exactly the entries those events' items imply |
| Financials.SearchKeywords | mcp-servers/financials-basket/server.py:596-613 | the keyword loop computes the matches of the keyword list, in order |
| Financials.MatchesOverMembership | mcp-servers/financials-basket/server.py:598-613 | a match is the entry of a keyword that occurs in the text, every occurring keyword has one, and each counts at least one mention |
| Financials.MatchesOverEmpty | mcp-servers/financials-basket/server.py:598-613 | there are no matches exactly when no keyword occurs |
| Financials.RaiseContainsDoubt | mcp-servers/financials-basket/server.py:520-524 | "raise substantial doubt" contains "substantial doubt", so either keyword makes the level high |
| Financials.RiskNone | mcp-servers/financials-basket/server.py:615-617 | the level is "none" exactly when no keyword occurs |
| Financials.RiskHigh | mcp-servers/financials-basket/server.py:618-621 | the level is "high" exactly when "substantial doubt" occurs |
| Financials.RiskMediumLow | mcp-servers/financials-basket/server.py:618-625 | otherwise with matches, "medium" exactly when the mentions total more than 5 and "low" when they total 5 or fewer |
| Financials.TotalAtLeastSize | mcp-servers/financials-basket/server.py:619 | the mention total is at least the number of matched keywords |
| Financials.ConcernThreats | mcp-servers/financials-basket/server.py:627-632 | a threat is reported exactly when the level is high or medium |
| Financials.IndexOf | mcp-servers/financials-basket/server.py:555-564 | the first index of the form, or none when the form is absent |
| Financials.FetchGoingConcern | mcp-servers/financials-basket/server.py:531-648 | the "No 10-K filing found" answer is given exactly when no 10-K is listed |
| Financials.GoingConcernThreats | mcp-servers/financials-basket/server.py:615-636 | when assessed, going concern is found exactly when the level is not "none", and a threat is reported exactly when a doubt keyword matched or there are more than five mentions |
| Financials.OwnershipLists | mcp-servers/financials-basket/server.py:686-701 | the 13D/13G list is the first `limit` "SC 13" filings and the insider list the first `limit` filings of forms 3, 4, 4/A and 5 |
| Financials.Filter13D | mcp-servers/financials-basket/server.py:710 | the 13D filings are exactly the listed filings of form SC 13D or SC 13D/A |
| Financials.FetchOwnershipFilings | mcp-servers/financials-basket/server.py:665-731 | the loop computes the ownership report |
| Financials.OwnershipProperties | mcp-servers/financials-basket/server.py:683-726 | both lists are the first filings of their kind and hold at most `limit` filings; activist interest is reported exactly when a 13D filing made it into the list |
| Financials.GrowthSignal | mcp-servers/financials-basket/server.py:762-769 | growth above 5 is a strength, below 0 a weakness, and growth from 0 to 5 or no growth adds nothing |
| Financials.NetMarginSignal | mcp-servers/financials-basket/server.py:772-781 | a net margin above 5 is a strength, below 5 a weakness, and exactly 5 or no margin adds nothing |
| Financials.OperatingMarginSignal | mcp-servers/financials-basket/server.py:783-785 | an operating margin above 20 is a strength, and nothing else is reported |
| Financials.LeverageSignal | mcp-servers/financials-basket/server.py:789-796 | debt-to-equity above 2 is the high-leverage threat, above 1 up to 2 a weakness, below 0.5 a strength, and 0.5 to 1 nothing |
| Financials.NetDebtSignal | mcp-servers/financials-basket/server.py:798-802 | a negative net debt is the net-cash strength, and nothing else is reported |
| Financials.FreeCashFlowSignal | mcp-servers/financials-basket/server.py:806-812 | a present non-zero free cash flow is a strength when positive and a weakness when negative |
| Financials.RndSignal | mcp-servers/financials-basket/server.py:814-820 | heavy R&D is an opportunity exactly when R&D is reported, revenue is positive and R&D is more than 10% of revenue |
| Financials.Revenue | mcp-servers/financials-basket/server.py:816 | the corrected revenue agrees with the expression as written wherever that does not raise, and is none when no revenue was reported |
| Financials.ApplyGrowthRule | mcp-servers/financials-basket/server.py:762-769 | the growth branch appends the growth signal's entry to its list |
| Financials.ApplyNetMarginRule | mcp-servers/financials-basket/server.py:772-781 | the net-margin branch appends the margin signal's entry to its list |
| Financials.ApplyFinancialsRules | mcp-servers/financials-basket/server.py:760-785 | the growth and margin rules are applied in order, and only when the financials fetch succeeded |
| Financials.ApplyDebtRules | mcp-servers/financials-basket/server.py:788-802 | the leverage and net-debt rules are applied in order, and only when the debt fetch succeeded |
| Financials.ApplyCashFlowRules | mcp-servers/financials-basket/server.py:805-820 | the free-cash-flow rule and, as written, the R&D rule, which raises when R&D is reported beside a financials record without revenue |
| Financials.SecFundamentalsBasket | mcp-servers/financials-basket/server.py:751-820 | the rule blocks compute the basket as written, raising where it raises |
| Financials.FundamentalsAsWrittenAgrees | mcp-servers/financials-basket/server.py:814-820 | the basket as written fails exactly when R&D is reported and the financials carry no revenue record, and otherwise agrees with the corrected basket |
| Financials.RndWithoutRevenue | mcp-servers/financials-basket/server.py:816 | R&D of 1 beside financials without revenue: the basket as written raises, the corrected one reports nothing |
| Financials.FundamentalsThreats | mcp-servers/financials-basket/server.py:791-792 | the only threat is high leverage, present exactly when debt-to-equity is above 2 |
| Financials.FundamentalsOpportunities | mcp-servers/financials-basket/server.py:752-820 | the only opportunity is heavy R&D (above 10%), and the seven rules add at most seven entries |
| Macro.FirstUsable | mcp-servers/macro-basket/server.py:112-116 | the scan stops at the first observation from `start` on whose value is non-empty and not ".", and every observation before it is unusable |
| Macro.Rest | mcp-servers/macro-basket/server.py:120 | `observations[1:]` drops the first observation, and is empty for an empty list |
| Macro.ValueAt | mcp-servers/macro-basket/server.py:114-122 | no value when the scan found nothing; `float()` of the value found, failing when that value is not a numeral |
| Macro.FetchFredSeries | mcp-servers/macro-basket/server.py:67-138 | the two scanning loops compute the series record: an error without an API key or when the request or `float()` fails |
| Macro.FirstUsableAt | mcp-servers/macro-basket/server.py:112-116 | the first usable observation from `start` on is the scan's answer |
| Macro.FredLatestIsFirstUsable | mcp-servers/macro-basket/server.py:75-116 | a successful fetch had an API key; the latest value exists exactly when some observation is usable, and then it is the value and date of the first usable one; no latest value means no date |
| Macro.FredPreviousFollowsLatest | mcp-servers/macro-basket/server.py:110-123 | when the newest observation is usable, the previous value is the next usable one after it |
| Macro.FredPreviousRepeatsLatest | mcp-servers/macro-basket/server.py:119-123 | when the newest observation is unusable, both scans find the same observation and the previous value repeats the latest |
| Macro.TrendOf | mcp-servers/macro-basket/server.py:206-211 | "rising" exactly when there is a non-zero previous value and the value exceeds it by more than the band, "falling" when it is more than the band below, "stable" otherwise, including a missing or zero previous value |
| Macro.GdpImpact | mcp-servers/macro-basket/server.py:153-171 | GDP growth above 3 is an opportunity, above 1 up to 3 neutral, above -2 up to 1 a threat, -2 or below a severe threat, and no reading neutral |
| Macro.RateImpact | mcp-servers/macro-basket/server.py:213-224 | a rate above 5 is a threat, above 1 up to 3 an opportunity, and at most 1 or above 3 up to 5 neutral |
| Macro.InflationImpact | mcp-servers/macro-basket/server.py:295-313 | inflation above 4 or at most 0 is a threat, above 0 up to 2 an opportunity, above 2 up to 4 and no figure neutral |
| Macro.UnemploymentImpact | mcp-servers/macro-basket/server.py:355-366 | unemployment below 4 is an opportunity unless rising (then neutral), 4 up to 5 neutral, 5 up to 7 a threat, 7 or more a severe threat |
| Macro.GdpReading | mcp-servers/macro-basket/server.py:141-183 | a series error is the metric's error; otherwise the impact comes from the latest value, which is shown only when non-zero, and there is no trend |
| Macro.TrendShown | mcp-servers/macro-basket/server.py:232 | a trend is shown exactly when the latest value is present and non-zero, and then it is the trend of that value |
| Macro.RateReading | mcp-servers/macro-basket/server.py:186-237 | a series error is the metric's error; otherwise the impact is neutral without a reading and the rate band with one, and the trend uses the 0.1 band |
| Macro.UnemploymentReading | mcp-servers/macro-basket/server.py:328-379 | a series error is the metric's error; otherwise the trend uses the 0.2 band, no reading is neutral, and a reading's impact depends on the value and its trend |
| Macro.UsableObs | mcp-servers/macro-basket/server.py:274-275 | `valid_obs` holds exactly the usable observations, in order |
| Macro.YearAgoIndex | mcp-servers/macro-basket/server.py:277-283 | the year-ago observation is the twelfth usable one when there are at least 12, else the last one, never the newest |
| Macro.Yoy | mcp-servers/macro-basket/server.py:285-288 | year-over-year inflation is computed exactly when both values are non-zero; against a positive base it is positive exactly when the price rose and zero exactly when it held |
| Macro.CpiYoy | mcp-servers/macro-basket/server.py:254-293 | a failed request or fewer than two usable observations give neither figure nor date, and a figure always comes with its date |
| Macro.CpiComparesYearAgo | mcp-servers/macro-basket/server.py:274-286 | the newest usable observation is compared with the twelfth when there are at least 12, else with the oldest, and the date is that of the newest |
| Macro.CpiReading | mcp-servers/macro-basket/server.py:240-325 | an error from the first request is the metric's error; otherwise the impact and the shown figure come from the second request's inflation |
| Macro.MacroRouting | mcp-servers/macro-basket/server.py:410-413 | OPPORTUNITY goes to opportunities, THREAT and SEVERE_THREAT to threats, everything else nowhere |
| Macro.SignalOf | mcp-servers/macro-basket/server.py:405-408 | a metric carrying an error is skipped, any other contributes its own entry |
| Macro.OverallAssessment | mcp-servers/macro-basket/server.py:416-426 | 3 or more threats is challenging, exactly 2 mixed, otherwise 2 or more opportunities favorable, else neutral |
| Macro.FullMacroBasket | mcp-servers/macro-basket/server.py:382-445 | the basket carries the four metrics, the routed summary and the assessment of its list sizes |
| Macro.MacroBasketSummary | mcp-servers/macro-basket/server.py:396-413 | strengths and weaknesses stay empty, at most four entries, the threats are exactly the successful threat metrics and the opportunities exactly the successful opportunity metrics |
| Macro.NoKeyIsNeutral | mcp-servers/macro-basket/server.py:404-426 | without an API key every metric is an error, the summary is empty and the outlook is neutral |
| Macro.OutlookNeedsSignals | mcp-servers/macro-basket/server.py:416-426 | a favorable outlook needs at least two opportunities, and a challenging one leaves room for at most one |
| Valuation.QuoteOf | mcp-servers/valuation-basket/server.py:65-104 | the quote is fetched exactly when the request succeeds with status 200 and at least one result, and it is then the first result; a non-200 status is reported with its code |
| Valuation.NumberOf | mcp-servers/valuation-basket/server.py:107-112 | a scalar counts as a number when Python's `isinstance(v, (int, float))` holds, so a bool is read as 1 or 0 |
| Valuation.SafeGet | mcp-servers/valuation-basket/server.py:107-112 | a missing key gives no value; a formatted field gives its "raw" part as it is, a bare field its own number and anything else no value |
| Valuation.RatioValue | mcp-servers/valuation-basket/server.py:128-132 | each ratio is read from the fields the fetcher names, with the P/E and P/S `or` fallbacks taken only when the first reading is missing or zero |
| Valuation.PeImpact | mcp-servers/valuation-basket/server.py:141-159 | the P/E bands: negative or 30 and above is a weakness, 0 to 10 an opportunity, 10 to 30 neutral |
| Valuation.PsImpact | mcp-servers/valuation-basket/server.py:197-211 | the P/S bands: below 1 an opportunity, 1 to 8 neutral, 8 and above a weakness |
| Valuation.PbImpact | mcp-servers/valuation-basket/server.py:246-257 | the P/B bands: below 1 an opportunity, 1 to 5 neutral, 5 and above a weakness |
| Valuation.EvEbitdaImpact | mcp-servers/valuation-basket/server.py:295-309 | the EV/EBITDA bands: negative or 20 and above a weakness, 0 to 8 an opportunity, 8 to 20 neutral |
| Valuation.PegImpact | mcp-servers/valuation-basket/server.py:344-359 | the PEG bands: negative or 2 and above a weakness, 0 to 1 an opportunity, 1 to 2 neutral |
| Valuation.RatioImpact | mcp-servers/valuation-basket/server.py:141-359 | every fetcher classifies its ratio as an opportunity, neutral or a weakness, never a strength or threat |
| Valuation.RatioOf | mcp-servers/valuation-basket/server.py:115-370 | a fetcher fails exactly when the quote fails, reports "not available" exactly when its ratio is missing (`is None`), and otherwise classifies the ratio it read by its own bands |
| Valuation.PeFallsBackToForward | mcp-servers/valuation-basket/server.py:128-139 | with a zero or missing trailing P/E the fetcher reports the forward P/E, and is unavailable exactly when that is missing |
| Valuation.PeFlag | mcp-servers/valuation-basket/server.py:413-418 | the basket flags a trailing P/E strictly between 0 and 15 as an opportunity and above 40 as a weakness, and nothing else |
| Valuation.PsFlag | mcp-servers/valuation-basket/server.py:421-426 | a non-zero P/S below 1 is an opportunity, above 10 a weakness |
| Valuation.PbFlag | mcp-servers/valuation-basket/server.py:429-434 | a non-zero P/B below 1 is an opportunity, above 8 a weakness |
| Valuation.EvEbitdaFlag | mcp-servers/valuation-basket/server.py:437-442 | an EV/EBITDA strictly between 0 and 8 is an opportunity, above 20 a weakness |
| Valuation.PegFlag | mcp-servers/valuation-basket/server.py:445-450 | a PEG strictly between 0 and 1 is an opportunity, above 2 a weakness |
| Valuation.MetricsOf | mcp-servers/valuation-basket/server.py:387-402 | the basket's metrics are the same readings the single fetchers make |
| Valuation.Formatted | mcp-servers/valuation-basket/server.py:468-479 | every ratio is reported only when it is non-zero; enterprise value and market cap pass through |
| Valuation.OverallValuation | mcp-servers/valuation-basket/server.py:453-465 | three or more opportunities mean undervalued, else three or more weaknesses a premium valuation, else the larger count decides, and a tie is mixed |
| Valuation.ValuationBasketOf | mcp-servers/valuation-basket/server.py:373-488 | a quote error yields only the upper-cased ticker and that error; otherwise the full basket |
| Valuation.ApplyPeRule | mcp-servers/valuation-basket/server.py:413-418 | the P/E block appends the P/E flag, if any, to its list and nothing else |
| Valuation.ApplyPsRule | mcp-servers/valuation-basket/server.py:421-426 | the P/S block appends the P/S flag, if any |
| Valuation.ApplyPbRule | mcp-servers/valuation-basket/server.py:429-434 | the P/B block appends the P/B flag, if any |
| Valuation.ApplyEvEbitdaRule | mcp-servers/valuation-basket/server.py:437-442 | the EV/EBITDA block appends its flag, if any |
| Valuation.ApplyPegRule | mcp-servers/valuation-basket/server.py:445-450 | the PEG block appends its flag, if any |
| Valuation.ValuationRules | mcp-servers/valuation-basket/server.py:405-450 | the five blocks in order build the summary that routing the five flags gives |
| Valuation.FullValuationBasket | mcp-servers/valuation-basket/server.py:373-488 | the imperative basket builds exactly the basket value |
| Valuation.ValuationSummaryShape | mcp-servers/valuation-basket/server.py:405-450 | strengths and threats stay empty, at most five entries are added, every opportunity is a "low" flag and every weakness a "high" one |
| Valuation.FlagsAgreeWithFetchers | mcp-servers/valuation-basket/server.py:141-450 | on P/S, P/B, EV/EBITDA and PEG the basket's opportunity flag agrees with the fetcher's opportunity in both directions and its weakness flags are fetcher weaknesses; a P/E the fetcher calls an opportunity is flagged as one |
| Volatility.FredPreviousClose | mcp-servers/volatility-basket/server.py:103-106 | the previous close is the second observation's value unless there is none or it is "."; a non-numeric second value makes the fetch fail |
| Volatility.FredVix | mcp-servers/volatility-basket/server.py:70-116 | the loop stopping at the first usable observation computes the FRED quote: nothing without a key, after a failed request or when no observation is usable |
| Volatility.FredVixReadsFirstUsable | mcp-servers/volatility-basket/server.py:96-113 | a FRED quote holds the value of an observation with every earlier one unusable, is dated by the first observation, and its previous close is the value itself or the second observation's |
| Volatility.YahooVixOf | mcp-servers/volatility-basket/server.py:119-142 | the Yahoo quote exists exactly when the request succeeds; a missing price reads 0 and a missing previous close reads as the price |
| Volatility.VixImpact | mcp-servers/volatility-basket/server.py:162-173 | the VIX bands: below 15 an opportunity, 15 to 20 neutral, 20 to 30 a threat, 30 and above a severe threat |
| Volatility.ChangePct | mcp-servers/volatility-basket/server.py:179 | the change is 0 without a previous close, and otherwise positive exactly when the level rose and negative exactly when it fell |
| Volatility.VixOf | mcp-servers/volatility-basket/server.py:145-184 | FRED is used when it gives a quote, Yahoo otherwise, and "All sources failed" exactly when both fail; the reading's category is that of its level |
| Volatility.FetchVix | mcp-servers/volatility-basket/server.py:150-156 | the chain reassigning `vix_data` computes the same reading |
| Volatility.NoKeyUsesYahoo | mcp-servers/volatility-basket/server.py:150-156 | without a FRED key the VIX comes from Yahoo, and fails exactly when Yahoo fails |
| Volatility.NonNull | mcp-servers/volatility-basket/server.py:212-213 | the filtered list keeps exactly the present closes and is no longer than the input |
| Volatility.Last | mcp-servers/volatility-basket/server.py:214-216 | the last `k` elements, exactly `k` of them |
| Volatility.LastAsWritten | mcp-servers/volatility-basket/server.py:215-216 | Python's `xs[-k:]` is the last `k` elements for `k > 0` but the whole list for `k == 0` |
| Volatility.ReturnsOf | mcp-servers/volatility-basket/server.py:222-225 | the daily returns are defined exactly when no close but the last is zero, one fewer than the closes, each the relative change between neighbours |
| Volatility.BetaOfItself | mcp-servers/volatility-basket/server.py:228-237 | a return series has beta 1 against itself |
| Volatility.BetaFlatMarket | mcp-servers/volatility-basket/server.py:237 | a flat market has no variance, and beta falls back to 1.0 |
| Volatility.BetaImpact | mcp-servers/volatility-basket/server.py:240-251 | the beta bands: below 0.8 a strength, 0.8 to 1.2 neutral, 1.2 and above a weakness |
| Volatility.Beta | mcp-servers/volatility-basket/server.py:212-237 | beta is "Insufficient data" exactly when either series has fewer than 30 present closes |
| Volatility.BetaAsWrittenAgrees | mcp-servers/volatility-basket/server.py:212-237 | whenever both series keep a close, the code as written computes the corrected beta |
| Volatility.BetaEmptyMarketCounterexample | mcp-servers/volatility-basket/server.py:212-237 | 30 stock closes against a market series of nulls: the code as written ends in an index error, the corrected beta in "Insufficient data" |
| Volatility.HistoricalVolatilityImpact | mcp-servers/volatility-basket/server.py:298-309 | the historical-volatility bands: below 20 a strength, 20 to 35 neutral, 35 and above a weakness |
| Volatility.HistoricalVolatility | mcp-servers/volatility-basket/server.py:285-296 | "Insufficient data" exactly when fewer than 10 closes are present; otherwise the annualised deviation of the returns of at least 10 closes |
| Volatility.AtmIndex | mcp-servers/volatility-basket/server.py:355 | `min` with a key picks the first call whose strike is closest to the price |
| Volatility.ImpliedVolatilityImpact | mcp-servers/volatility-basket/server.py:359-370 | the implied-volatility bands: below 25 an opportunity, 25 to 40 neutral, 40 and above a threat |
| Volatility.ImpliedVolatility | mcp-servers/volatility-basket/server.py:327-357 | no chain and no calls are the two errors; otherwise the implied volatility of a call whose strike is closest to the price, as a percentage |
| Volatility.SignalFrom | mcp-servers/volatility-basket/server.py:410-414 | a metric contributes exactly when it has no error, with its own category |
| Volatility.VixSignal | mcp-servers/volatility-basket/server.py:410-414 | the VIX contributes exactly when it was read, with the category of its reading |
| Volatility.FullVolatilityBasket | mcp-servers/volatility-basket/server.py:389-423 | the loop over the four metrics builds the routed summary |
| Volatility.VolatilitySummarySize | mcp-servers/volatility-basket/server.py:410-423 | the summary holds at most four entries |
| Volatility.VolatilityStrengthSources | mcp-servers/volatility-basket/server.py:410-423 | strengths and weaknesses come only from beta and historical volatility |
| Volatility.VolatilityThreatSources | mcp-servers/volatility-basket/server.py:410-423 | threats come only from the VIX and implied volatility, and a VIX threat is a level of at least 20 |
| Volatility.VolatilityOpportunitySources | mcp-servers/volatility-basket/server.py:410-423 | opportunities come only from the VIX and implied volatility |
| Sentiment.WeightedMeanBounds | mcp-servers/sentiment-basket/server.py:474-476 | a weighted mean of values in a band, with non-negative weights and a positive total, stays in that band |
| Sentiment.Score | mcp-servers/sentiment-basket/server.py:137 | `(avg + 1) * 50` maps a mean compound score in [-1, 1] onto [0, 100], is 50 exactly at 0 and above 50 exactly for a positive mean |
| Sentiment.FinnhubImpact | mcp-servers/sentiment-basket/server.py:140-151 | the Finnhub bands: 60 and above a strength, 45 to 60 neutral, 30 to 45 a weakness, below 30 a threat |
| Sentiment.ArticleScores | mcp-servers/sentiment-basket/server.py:128-133 | every analysed article counts once, with a compound score in [-1, 1] |
| Sentiment.TotalCompound | mcp-servers/sentiment-basket/server.py:127-133 | the loop over the first 50 articles accumulates the sum of their compound scores |
| Sentiment.FinnhubSentiment | mcp-servers/sentiment-basket/server.py:72-172 | the imperative fetch computes the Finnhub reading: errors without a key, without VADER, on an error payload or a failed request, the neutral reading without articles |
| Sentiment.FinnhubProperties | mcp-servers/sentiment-basket/server.py:114-137 | a Finnhub score lies in [0, 100] and rests on at most 50 articles, articles past the fiftieth never matter, and no articles give the neutral reading |
| Sentiment.PostScores | mcp-servers/sentiment-basket/server.py:220-231 | every post counts once, weighted by its upvotes |
| Sentiment.RetailImpact | mcp-servers/sentiment-basket/server.py:249-260 | the Reddit and YouTube bands: 65 and above a strength, 50 to 65 neutral, 35 to 50 a weakness, below 35 a threat |
| Sentiment.AddPosts | mcp-servers/sentiment-basket/server.py:220-232 | the loop over one subreddit's posts adds their upvote-weighted scores, their upvotes and their number to the running totals |
| Sentiment.RedditSentiment | mcp-servers/sentiment-basket/server.py:175-282 | the loop over the subreddits computes the Reddit reading, skipping rate-limited and failed requests |
| Sentiment.RedditProperties | mcp-servers/sentiment-basket/server.py:234-247 | with non-negative upvotes a Reddit score lies in [0, 100], and no analysed post gives the neutral reading |
| Sentiment.RedditSkipsRateLimited | mcp-servers/sentiment-basket/server.py:212-213 | a rate-limited subreddit changes nothing |
| Sentiment.StripTags | mcp-servers/sentiment-basket/server.py:369 | removing tags never lengthens a comment and leaves a comment without '<' unchanged |
| Sentiment.StripSingleTag | mcp-servers/sentiment-basket/server.py:369-371 | a comment that is a single tag leaves nothing to analyse |
| Sentiment.CleanComments | mcp-servers/sentiment-basket/server.py:365-371 | the comments kept are tag-stripped and non-empty, at most one per thread |
| Sentiment.AnalysedComments | mcp-servers/sentiment-basket/server.py:347-376 | every comment analysed is non-empty |
| Sentiment.AnalysedCommentsAppend | mcp-servers/sentiment-basket/server.py:347-376 | a video with a missing or empty id, or whose comment request failed, adds no comment; any other video adds its cleaned comments after the earlier ones |
| Sentiment.CommentScores | mcp-servers/sentiment-basket/server.py:372-374 | every analysed comment counts once |
| Sentiment.CommentScoresBand | mcp-servers/sentiment-basket/server.py:372-374 | every analysed comment counts with weight 1 and a compound score in [-1, 1] |
| Sentiment.YoutubeOf | mcp-servers/sentiment-basket/server.py:284-426 | a YouTube score lies in [0, 100], and no analysed comment gives the neutral reading |
| Sentiment.AddComments | mcp-servers/sentiment-basket/server.py:365-374 | the loop over one video's comment threads adds the scores and the number of its non-empty stripped comments |
| Sentiment.YoutubeSentiment | mcp-servers/sentiment-basket/server.py:344-376 | the loop over the videos computes the YouTube reading |
| Sentiment.YoutubeQuery | mcp-servers/sentiment-basket/server.py:311 | the search is `"{company_name} stock"` when a ticker is given and the bare name otherwise |
| Sentiment.CompanyName | mcp-servers/sentiment-basket/server.py:434-435 | the company name falls back to the ticker |
| Sentiment.Scored | mcp-servers/sentiment-basket/server.py:456-459 | only metrics without an error contribute a (score, weight) pair, in order, each with a positive weight |
| Sentiment.SignalsOf | mcp-servers/sentiment-basket/server.py:456-471 | every metric gives the signal its category routes |
| Sentiment.Aggregate | mcp-servers/sentiment-basket/server.py:453-471 | the loop appending to `scores`, `weights` and the summary lists builds the scored pairs and the routed summary |
| Sentiment.FullSentimentBasket | mcp-servers/sentiment-basket/server.py:429-512 | the imperative basket builds exactly the basket value |
| Sentiment.ScoredNonEmpty | mcp-servers/sentiment-basket/server.py:456-459 | some pair is scored exactly when some metric has no error |
| Sentiment.CompositeBounds | mcp-servers/sentiment-basket/server.py:474-478 | the composite lies between the smallest and the largest score of the metrics without an error, and is 50 when every metric failed |
| News.PayloadOf | mcp-servers/news-basket/server.py:85-97 | the payload caps `max_results` at 10, never asks for raw content, and carries a domain list exactly when it is non-empty |
| News.TavilySearchOf | mcp-servers/news-basket/server.py:58-136 | no key is "not configured", a non-200 status an API error with that status and body; a success carries every result of the response, its count, the query and the depth |
| News.CompanyQuery | mcp-servers/news-basket/server.py:143-145 | the query is "{ticker} stock news", prefixed by "{company_name} ({ticker})" when a non-empty name is given |
| News.Lead | mcp-servers/news-basket/server.py:161-171 | a lead is a prefix of the title of at most `n` characters |
| News.Leads | mcp-servers/news-basket/server.py:161-171 | the leads of the results that pass a test, no more than there are results |
| News.HintsOf | mcp-servers/news-basket/server.py:161-171 | each list of hints holds at most one lead per result |
| News.CompanyHints | mcp-servers/news-basket/server.py:156-173 | the loop over the results builds exactly the hints |
| News.LeadsMembership | mcp-servers/news-basket/server.py:161-171 | a lead is listed exactly when some result passing the test has it |
| News.HintsMembership | mcp-servers/news-basket/server.py:165-171 | an opportunity is the lead of a result mentioning a positive keyword and a threat that of one mentioning a negative keyword, in both directions; one result can be both |
| News.CompanyNewsOf | mcp-servers/news-basket/server.py:139-175 | hints are added exactly when the search succeeds with at least one result, and are then the hints of those results |
| News.HintsAsWrittenAgrees | mcp-servers/news-basket/server.py:155-173 | when every result has a title the code as written and the model agree |
| News.UntitledHitCounterexample | mcp-servers/news-basket/server.py:162-167 | one untitled result whose content says "strong" stops the code as written at `r["title"][:80]`; the model files an empty lead |
| News.GoingConcernQuery | mcp-servers/news-basket/server.py:182-183 | the query quotes the company name, or the ticker without one, and ends with the five distress phrases |
| News.HitSignals | mcp-servers/news-basket/server.py:197-206 | a result gives at most three signals, all sourced from its 60-character lead, and one for "substantial doubt" exactly when its content mentions it |
| News.RiskSignals | mcp-servers/news-basket/server.py:197-206 | at most three signals per result |
| News.AddHitSignals | mcp-servers/news-basket/server.py:201-206 | one pass of the loop appends the result's signals |
| News.CollectRiskSignals | mcp-servers/news-basket/server.py:195-206 | the loop over the results collects exactly the risk signals |
| News.RiskLevelOf | mcp-servers/news-basket/server.py:208-211 | three or more signals are high risk, one or two medium, none no risk |
| News.AssessmentOf | mcp-servers/news-basket/server.py:208-221 | at most the first five signals are reported, the count is of all of them, and the threats list is empty exactly when there is no signal |
| News.GoingConcernNewsOf | mcp-servers/news-basket/server.py:178-223 | every successful search carries the assessment of its results, and a failed one none |
| News.QuietResultsNoRisk | mcp-servers/news-basket/server.py:194-221 | results that mention no distress phrase leave the risk at none with no threats |
| News.RiskSignalsAsWrittenAgrees | mcp-servers/news-basket/server.py:197-206 | when every result has a title the code as written and the model agree |
| News.UntitledDistressCounterexample | mcp-servers/news-basket/server.py:199-204 | an untitled result whose content reports bankruptcy stops the code as written at `r["title"][:60]`; the model counts a signal |
| HfSpaces.SectionBounds | api_hf_spaces.py:389-395 | no section exactly when the heading does not occur; otherwise it runs from the first occurrence of the heading to the next "##" after its first character, or to the end |
| HfSpaces.LineItem | api_hf_spaces.py:396 | a line gives an item exactly when its stripped form starts with "-", and the item is the line with every dash removed, stripped |
| HfSpaces.ExtractSection | api_hf_spaces.py:388-397 | a report without the heading has no items |
| HfSpaces.ItemsMembership | api_hf_spaces.py:396 | an item is listed exactly when some line starting with "-" gives it |
| HfSpaces.NoDashInItems | api_hf_spaces.py:396 | no item contains a dash |
| HfSpaces.ExtractedItems | api_hf_spaces.py:388-397 | every item comes from a dash line of the section whose heading occurs in the report, and contains no dash |
| HfSpaces.AnalysisScore | api_hf_spaces.py:332 | the score is 9.2 exactly when the lower-cased name contains "tesla", "apple" or "microsoft", and 8.5 otherwise |
| HfSpaces.ScoreIgnoresCase | api_hf_spaces.py:332 | the score does not depend on letter case |
| HfSpaces.FlagshipScore | api_hf_spaces.py:332 | a name containing "Apple" in any case scores 9.2 |

## Left out

- HTTP and API clients are not modelled: httpx, requests, yfinance, and the Tavily, Finnhub, Reddit, YouTube, SEC EDGAR and FRED calls. Their responses, or a failure, are inputs, and only the decisions taken on them are modelled.
- Language-model calls are functions passed in: the Analyst, Critic and Editor prompts and the ChatGroq client. The Critic's JSON decoding is an `Option` reply. The Analyst node is opaque, as is the langsmith tracing.
- Concurrency is not modelled. The background `threading.Thread` of `start_analysis` is a sequential call that finishes before the method returns. Races on the shared workflow dictionary are not modelled. The `asyncio.gather` fan-outs of the baskets are sequential too.
- The market-cap enrichment of listings is not modelled (`_enrich_with_market_cap`, with its thread pool). Market caps are part of the search input.
- Clocks and fresh ids are parameters: timestamps, `datetime.now()` and `uuid4`.
- Floating point is modelled as `real`. Thresholds are compared exactly, and `round(...)` is not modelled.
- Number formatting is not modelled. A SWOT entry is a value naming its rule and number, not the formatted f-string, which also covers the R&D percentage text.
- Valuation.SafeGet: the "raw" part of a formatted field is taken to be a number. A text or null "raw" is not modelled. `safe_get` would return such a value as it is, and the fetchers and the basket would then raise TypeError when they compare or round it.
- Critic.CriticNode: a JSON reply whose "reasoning" is null, or whose fields are not a string and a number, is not modelled. With a null reasoning, the critique preview `state['critique'][:100]` raises TypeError, which the node does not catch.
- Workflows.WorkflowRegistry.RunWorkflowBackground: the nodes' progress writes during `graph_app.invoke` are a parameter. The nodes that make them are modelled one by one (Researcher.ResearcherNode, Editor.EditorNode), but the run does not derive its writes from the graph. Whether the graph import succeeds is a parameter too.
- Volatility.YahooVixOf, Volatility.ImpliedVolatility and Sentiment.Upvotes: the API responses are taken to be well typed. A key that is present but null, where `.get` has a non-None default, is read as a missing key. In the source `.get` returns that null. A null `regularMarketPrice` or `previousClose` then makes `fetch_vix` raise TypeError, which nothing catches, so the volatility basket fails as a whole. A null `strike` or `impliedVolatility` gives the caught implied-volatility error record. A null `ups` raises TypeError in the Reddit loop.
- Financials.FetchGoingConcern: the `fetch` parameter returns the 10-K text already cleaned. The tag removal and whitespace collapse of the two `re.sub` calls are not modelled, so a keyword that a tag splits in the raw document is not captured.
- Volatility.HistoricalVolatility: the result is stated only as the annualised deviation of the returns of some 10 or more closes, not of the last 30 present closes. The sample standard deviation and the square root of 252 are an `annualize` parameter, because they are floating-point numerics.
- Other floating-point numerics are not modelled: the CAGR of `calculate_growth` (only its guards are), and VADER's compound scores, which are a scorer parameter with values in [-1, 1].
- The files, cache and environment are not modelled: the listing cache file and its expiry, `get_us_stock_listings`, `init_stock_listings`, `.env` loading, and the `_fetch_listings` fallback to the cache when a download fails.
- `_fetch_via_a2a` and `get_ticker` are not modelled as code: they are the fetch and lookup parameters of the Researcher.
- The root `src/graph_cyclic.py` that the API imports is not part of this model. The loop is built from the v2 graph and the shared exit rule.
- Server and UI boilerplate is not modelled: the MCP `list_tools` / `call_tool` boilerplate, the `main()` server loops, the other API endpoints (`load_stock_listings`, `search_stocks_endpoint`, `api_info`), the Streamlit apps, the canned-report generator of the Hugging Face app and its other endpoints, and the demo and test scripts.
- `search_industry_trends` is not modelled. It forwards a fixed query to `tavily_search`, which is modelled, and adds no logic of its own.
- Text functions follow ASCII only. The model's `lower`, `upper`, `isspace` and the regular-expression `\w` cover ASCII letters, digits and whitespace. Python's Unicode case mapping and character classes are not modelled.
- The common-stock filter implements only the four regular-expression shapes that `EXCLUDED_PATTERNS` uses (a bare word, `\bW\b`, `WS?$` and `\bW\b$`), rather than a general regular-expression engine.
- The two in-place sorts are modelled on sequences, as a stable insertion sort that is proved sorted and a permutation. They are `annual_facts.sort` in `get_latest_value` and `results.sort` in `search_stocks`. The in-place update of the Python list is not captured.
- Dictionaries that the news and basket functions extend with new keys are modelled as records returned by value. An example is `result["swot_hints"] = ...`.

## Findings

| source | as written | input that shows it | evidently intended | confidence | as-written member | corrected member |
|---|---|---|---|---|---|---|
| src/stock_listings.py:113-123 | the loop assigns the mapped exchange of an other-listed row to the `exchange` parameter, so after a row whose exchange code is "NASDAQ" every later row takes the NASDAQ-file branch and skips the exchange filter | the other-listed file with a header, a row with fields X, Xyz, NASDAQ and a row with fields AB, Abc, Q: "AB" is listed on "NASDAQ" | every row of the other-listed file is read with its own layout and kept only on NYSE, AMEX or NYSE ARCA, so this file yields no listing | not executed | StockListings.RebindingCounterexample, StockListings.RebindingFile | StockListings.ParseNasdaqFile, StockListings.OtherScanAgrees |
| src/stock_listings.py:87-105 | the field-count guard admits two-field lines, and the other-listed branch then reads `fields[2]` and raises IndexError, which aborts the whole download | the other-listed file with a header and one row with fields AB, Abc | a row too short for the other-listed layout is skipped like one with fewer than two fields | not executed | StockListings.ShortLineCounterexample, StockListings.ShortLineFile | StockListings.ParseNasdaqFile, StockListings.RowsAreFiltered |
| mcp-servers/financials-basket/server.py:814-820 | `financials.get("revenue", {})` returns the stored `None` when no revenue fact was found, and `.get("value")` on it raises AttributeError | an R&D expense of 1 beside financials whose every fact is `None` | without a revenue the R&D rule adds nothing and the rest of the basket is returned | not executed | Financials.RndWithoutRevenue, Financials.SecFundamentalsBasket | Financials.Fundamentals, Financials.FundamentalsAsWrittenAgrees |
| mcp-servers/volatility-basket/server.py:214-219 | with `min_len == 0` the slices `[-0:]` keep whole lists, so 30 stock closes against a market series of nulls pass the length guard and the covariance indexes past the empty market returns | 30 stock closes of 1.0 and market closes that are all missing | "Insufficient data" whenever either series has fewer than 30 closes | not executed | Volatility.BetaEmptyMarketCounterexample | Volatility.Beta, Volatility.BetaAsWrittenAgrees |
| mcp-servers/news-basket/server.py:161-171 | a result without a title whose content matches a keyword reaches `r["title"][:80]`, which raises TypeError on `None` and loses the whole search | one untitled result whose content is "strong" | the hint is recorded with an empty lead, as the keyword test already reads a missing title as "" | not executed | News.UntitledHitCounterexample | News.HintsOf, News.HintsAsWrittenAgrees |
| mcp-servers/news-basket/server.py:197-206 | a result without a title whose content mentions a distress phrase reaches `r["title"][:60]` and raises TypeError | one untitled result whose content is "bankruptcy" | the signal is counted with an empty source | not executed | News.UntitledDistressCounterexample | News.RiskSignals, News.RiskSignalsAsWrittenAgrees |
