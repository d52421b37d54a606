/** The API graph's Editor node: the revision of the cyclic graph's Editor plus
    progress reports to the workflow registry before and after the model call. */
module Editor {
  import opened Wrappers
  import opened AgentStates
  import opened Workflows
  import EditorV2

  /** `workflow_id and progress_store`: an id is given and the store is a
      non-empty dictionary. */
  predicate Tracking(workflowId: string, store: WorkflowRegistry?)
    reads store
  {
    workflowId != "" && store != null && |store.workflows| > 0
  }

  /** `editor_node(state, workflow_id, progress_store)`. A tracked id that is
      not in the store raises `KeyError` before anything is written. `writes`
      are the progress writes the node makes, in order. */
  method EditorNode(state: AgentState, workflowId: string, store: WorkflowRegistry?,
                    revise: (Option<string>, Option<string>) -> string)
    returns (r: Result<AgentState, NodeError>, ghost writes: seq<ProgressWrite>)
    modifies state`draftReport, state`revisionCount, store
    // before the model call the old counter is reported, after it the new one
    ensures old(Tracking(workflowId, store)) && workflowId in old(store.workflows) ==>
      writes == [ProgressWrite("Editor", old(state.revisionCount).GetOr(0), old(state.score).GetOr(0.0)),
                 ProgressWrite("Editor", EditorV2.NextRevision(old(state.revisionCount)), old(state.score).GetOr(0.0))]
      && store.workflows == old(store.workflows)[workflowId := Progressed(old(store.workflows)[workflowId], writes)]
    ensures !(old(Tracking(workflowId, store)) && workflowId in old(store.workflows)) ==> writes == []
    ensures old(Tracking(workflowId, store)) && workflowId !in old(store.workflows) ==>
      r == Err(KeyError(workflowId)) && unchanged(state) && unchanged(store)
    ensures !(old(Tracking(workflowId, store)) && workflowId !in old(store.workflows)) ==>
      r == Ok(state)
      && state.draftReport == Some(revise(old(state.draftReport), old(state.critique)))
      && state.revisionCount == Some(EditorV2.NextRevision(old(state.revisionCount)))
    // the entry ends with the post-increment counter
    ensures old(Tracking(workflowId, store)) && workflowId in old(store.workflows) ==>
      store.workflows == old(store.workflows)[workflowId := old(store.workflows)[workflowId].(
        currentStep := "Editor",
        revisionCount := EditorV2.NextRevision(old(state.revisionCount)),
        score := state.score.GetOr(0.0))]
    ensures !old(Tracking(workflowId, store)) && store != null ==> unchanged(store)
  {
    writes := [];
    var tracking := workflowId != "" && store != null && |store.workflows| > 0;
    if tracking {
      if workflowId !in store.workflows {
        return Err(KeyError(workflowId)), [];
      }
      // the entry written before the model call carries the old counter
      store.UpdateProgress(workflowId, "Editor", state.revisionCount.GetOr(0), state.score.GetOr(0.0));
      writes := [ProgressWrite("Editor", state.revisionCount.GetOr(0), state.score.GetOr(0.0))];
    }
    var _ := EditorV2.EditorNode(state, revise);
    if tracking {
      store.UpdateProgress(workflowId, "Editor", state.revisionCount.value, state.score.GetOr(0.0));
      writes := writes + [ProgressWrite("Editor", state.revisionCount.value, state.score.GetOr(0.0))];
    }
    r := Ok(state);
  }
}
