/** The Editor node of the cyclic graph: replaces the draft with the model's
    revision and counts the revision. */
module EditorV2 {
  import opened Wrappers
  import opened AgentStates

  /** The revision counter after one more Editor run (an absent counter counts as 0). */
  function NextRevision(revisionCount: Option<int>): (n: int)
    ensures n == revisionCount.GetOr(0) + 1
    ensures revisionCount.Some? && revisionCount.value >= 0 ==> n >= 1
  {
    revisionCount.GetOr(0) + 1
  }

  /** `editor_node(state)`: `revise` is the model call, a function of the draft
      and the critique it is shown. Only the draft and the counter are written,
      and the same state object is returned. */
  method EditorNode(state: AgentState, revise: (Option<string>, Option<string>) -> string) returns (r: AgentState)
    modifies state`draftReport, state`revisionCount
    ensures r == state
    ensures state.draftReport == Some(revise(old(state.draftReport), old(state.critique)))
    ensures state.revisionCount == Some(NextRevision(old(state.revisionCount)))
  {
    var response := revise(state.draftReport, state.critique);
    state.draftReport := Some(response);
    state.revisionCount := Some(state.revisionCount.GetOr(0) + 1);
    r := state;
  }
}
