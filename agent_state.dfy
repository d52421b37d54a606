/** The state dictionary threaded through the agent graph, which every node
    updates in place and hands on. Keys the source reads with `.get(key, default)`
    are `Option` fields whose `None` stands for an absent key; `raw_data`,
    `draft_report` and `critique` are `Option` because the initial state holds
    Python `None` there. */
module AgentStates {
  import opened Wrappers

  class AgentState {
    var companyName: string
    /** `state.get("ticker")`: set when the company was picked from stock search */
    var ticker: Option<string>
    var rawData: Option<string>
    var draftReport: Option<string>
    var critique: Option<string>
    /** `state.get("revision_count", 0)` */
    var revisionCount: Option<int>
    /** `state.get("score", 0)` */
    var score: Option<real>
    var messages: seq<string>
    /** written by the Researcher: "a2a", "cached" or "live" */
    var dataSource: Option<string>
    /** written by the Researcher from the fetch result */
    var sourcesFailed: Option<seq<string>>

    /** The initial state of `run_self_correcting_workflow`. */
    constructor Initial(company: string)
      ensures companyName == company && ticker == None
      ensures rawData == None && draftReport == None && critique == None
      ensures revisionCount == Some(0) && score == Some(0.0) && messages == []
      ensures dataSource == None && sourcesFailed == None
    {
      companyName := company;
      ticker := None;
      rawData := None;
      draftReport := None;
      critique := None;
      revisionCount := Some(0);
      score := Some(0.0);
      messages := [];
      dataSource := None;
      sourcesFailed := None;
    }
  }

  /** The exceptions a node can raise. */
  datatype NodeError =
    | KeyError(key: string)
    | RuntimeError(message: string)
}
