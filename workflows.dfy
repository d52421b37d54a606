/** The API's in-memory workflow registry: `start_analysis` files a record under
    a fresh id and runs the workflow (the background thread, taken here as a
    sequential call), the run moves the record from "starting" through
    "running" to "completed" or "error", and the status, result and health
    endpoints read the registry. */
module Workflows {
  import opened Wrappers
  import opened Swot
  import opened SwotParser

  /** The body of a POST /analyze request. */
  datatype AnalysisRequest = AnalysisRequest(name: string, ticker: string, strategyFocus: string)

  const DefaultStrategyFocus := "Competitive Position"

  /** A request that gives only the company name. */
  function NameOnlyRequest(name: string): (r: AnalysisRequest)
    ensures r.name == name && r.ticker == "" && r.strategyFocus == DefaultStrategyFocus
  {
    AnalysisRequest(name, "", DefaultStrategyFocus)
  }

  datatype LogEntry = LogEntry(timestamp: string, step: string, message: string)

  /** The `result` entry of a completed workflow; `None` fields hold Python `None`. */
  datatype AnalysisResult = AnalysisResult(
    companyName: string,
    score: real,
    revisionCount: int,
    reportLength: nat,
    critique: Option<string>,
    swotData: Summary<string>,
    rawReport: string,
    dataSource: Option<string>,
    providerUsed: Option<string>)

  /** One entry of `WORKFLOWS`. `result` and `error` are keys that appear only
      when the run completes or fails. */
  datatype WorkflowRecord = WorkflowRecord(
    status: string,
    currentStep: string,
    revisionCount: int,
    score: real,
    companyName: string,
    ticker: string,
    strategyFocus: string,
    activityLog: seq<LogEntry>,
    mcpStatus: map<string, string>,
    result: Option<AnalysisResult>,
    error: Option<string>)

  /** The six data baskets whose status the UI shows. */
  const Baskets: seq<string> := ["financials", "valuation", "volatility", "macro", "news", "sentiment"]

  const IdleBaskets: map<string, string> :=
    map["financials" := "idle", "valuation" := "idle", "volatility" := "idle",
        "macro" := "idle", "news" := "idle", "sentiment" := "idle"]

  lemma IdleBasketsCoverAll()
    ensures IdleBaskets.Keys == set k | k in Baskets
    ensures |IdleBaskets| == 6
    ensures forall k | k in IdleBaskets :: IdleBaskets[k] == "idle"
  {
    assert IdleBaskets.Keys == {"financials", "valuation", "volatility", "macro", "news", "sentiment"};
  }

  /** The record `start_analysis` files. */
  function InitialRecord(request: AnalysisRequest): (r: WorkflowRecord)
    ensures r.status == "starting" && r.currentStep == "input"
    ensures r.revisionCount == 0 && r.score == 0.0 && r.activityLog == []
    ensures r.companyName == request.name && r.ticker == request.ticker && r.strategyFocus == request.strategyFocus
    ensures r.mcpStatus.Keys == set k | k in Baskets && forall k | k in r.mcpStatus :: r.mcpStatus[k] == "idle"
    ensures r.result == None && r.error == None
  {
    IdleBasketsCoverAll();
    WorkflowRecord("starting", "input", 0, 0.0, request.name, request.ticker, request.strategyFocus,
                   [], IdleBaskets, None, None)
  }

  /** A key of the graph's final state dictionary: absent, Python `None`, or a value. */
  datatype Field<T> = Missing | Null | Present(value: T) {
    /** `result.get(key, default)`; `None` is Python `None`. */
    function GetOr(default: T): (v: Option<T>)
      ensures Missing? ==> v == Some(default)
      ensures Null? ==> v == None
      ensures Present? ==> v == Some(value)
    {
      match this
      case Missing => Some(default)
      case Null => None
      case Present(x) => Some(x)
    }
  }

  /** The keys of the graph's final state that the API reads. */
  datatype GraphOutput = GraphOutput(
    draftReport: Field<string>,
    score: Option<real>,
    revisionCount: Option<int>,
    critique: Field<string>,
    dataSource: Field<string>,
    providerUsed: Field<string>)

  /** What `str(e)` says when `parse_swot_text` is handed `None`. */
  const NoneSplitError := "'NoneType' object has no attribute 'split'"

  function StartMessage(companyName: string, ticker: string): string {
    "Starting analysis for " + companyName + " (" + ticker + ")"
  }

  /** The record once the run has set it running and logged its start. */
  function Running(rec: WorkflowRecord, companyName: string, ticker: string, timestamp: string): WorkflowRecord {
    rec.(status := "running", currentStep := "researcher",
         activityLog := rec.activityLog + [LogEntry(timestamp, "input", StartMessage(companyName, ticker))],
         mcpStatus := IdleBaskets)
  }

  /** The record once `graph_app.invoke` is over: `outcome` is what it
      returned, or the message of the exception it raised. */
  function Settled(running: WorkflowRecord, companyName: string, outcome: Result<GraphOutput, string>): WorkflowRecord
  {
    match outcome
    case Err(message) => running.(status := "error", error := Some(message))
    case Ok(out) =>
      match out.draftReport.GetOr("")
      case None => running.(status := "error", error := Some(NoneSplitError))
      case Some(draft) =>
        var score := out.score.GetOr(0.0);
        var revisions := out.revisionCount.GetOr(0);
        running.(status := "completed", currentStep := "completed", revisionCount := revisions, score := score,
                 result := Some(AnalysisResult(companyName, score, revisions, |draft|, out.critique.GetOr(""),
                                               ParseSwot(draft), draft, out.dataSource.GetOr("unknown"),
                                               out.providerUsed.GetOr("unknown"))))
  }

  /** One `progress_store[workflow_id].update({...})` of a graph node: the
      step it names and the counter and score it read from the state. */
  datatype ProgressWrite = ProgressWrite(step: string, revisionCount: int, score: real)

  /** The record after the nodes' progress writes, in order: the last write
      decides the step, the counter and the score, and nothing else changes. */
  function Progressed(rec: WorkflowRecord, writes: seq<ProgressWrite>): (r: WorkflowRecord)
    ensures |writes| == 0 ==> r == rec
    ensures |writes| > 0 ==> (r.currentStep == writes[|writes| - 1].step
      && r.revisionCount == writes[|writes| - 1].revisionCount && r.score == writes[|writes| - 1].score)
    ensures r == rec.(currentStep := r.currentStep, revisionCount := r.revisionCount, score := r.score)
    decreases |writes|
  {
    if |writes| == 0 then rec
    else
      var w := writes[|writes| - 1];
      Progressed(rec, writes[..|writes| - 1]).(currentStep := w.step, revisionCount := w.revisionCount, score := w.score)
  }

  /** The record after `run_workflow_background`. `graphImport` is the
      outcome of importing the graph, the first statement of the `try`: when
      it raises, only the status and the error are written. Otherwise
      `progress` are the writes the nodes make to this record through
      `progress_store`, which is `WORKFLOWS` itself, while `graph_app.invoke`
      runs. */
  function Finished(rec: WorkflowRecord, companyName: string, ticker: string, timestamp: string,
                    graphImport: Result<(), string>, progress: seq<ProgressWrite>,
                    outcome: Result<GraphOutput, string>): WorkflowRecord
  {
    match graphImport
    case Err(message) => rec.(status := "error", error := Some(message))
    case Ok(_) => Settled(Progressed(Running(rec, companyName, ticker, timestamp), progress), companyName, outcome)
  }

  /** The fields GET /workflow/{id}/status returns. */
  datatype StatusView = StatusView(
    status: string,
    currentStep: string,
    revisionCount: int,
    score: real,
    activityLog: seq<LogEntry>,
    mcpStatus: map<string, string>,
    providerUsed: Option<string>,
    dataSource: Option<string>)

  datatype HttpError = HttpError(statusCode: int, detail: string)

  const NotFound := HttpError(404, "Workflow not found")

  function NotCompleted(status: string): HttpError {
    HttpError(400, "Workflow not completed. Status: " + status)
  }

  /** `get_workflow_status(workflow_id)`. `provider_used` and `data_source` are
      never written to a record, so they read as `None`. */
  function GetWorkflowStatus(workflows: map<string, WorkflowRecord>, id: string): (r: Result<StatusView, HttpError>)
    ensures id !in workflows <==> r == Err(NotFound)
    ensures r.Ok? ==> r.value.status == workflows[id].status && r.value.activityLog == workflows[id].activityLog
    ensures r.Ok? ==> (r.value.currentStep == workflows[id].currentStep
      && r.value.revisionCount == workflows[id].revisionCount && r.value.score == workflows[id].score)
    ensures r.Ok? ==> r.value.mcpStatus == workflows[id].mcpStatus
    ensures r.Ok? ==> r.value.providerUsed == None && r.value.dataSource == None
  {
    if id !in workflows then Err(NotFound)
    else
      var w := workflows[id];
      Ok(StatusView(w.status, w.currentStep, w.revisionCount, w.score, w.activityLog, w.mcpStatus, None, None))
  }

  /** `get_workflow_result(workflow_id)`; `Ok(None)` is the empty dictionary. */
  function GetWorkflowResult(workflows: map<string, WorkflowRecord>, id: string): (r: Result<Option<AnalysisResult>, HttpError>)
    ensures id !in workflows ==> r == Err(NotFound)
    ensures id in workflows && workflows[id].status != "completed" ==> r == Err(NotCompleted(workflows[id].status))
    ensures r.Ok? <==> id in workflows && workflows[id].status == "completed"
    ensures r.Ok? ==> r.value == workflows[id].result
  {
    if id !in workflows then Err(NotFound)
    else if workflows[id].status != "completed" then Err(NotCompleted(workflows[id].status))
    else Ok(workflows[id].result)
  }

  datatype Health = Health(status: string, activeWorkflows: nat)

  /** `health_check()` */
  function HealthCheck(workflows: map<string, WorkflowRecord>): (h: Health)
    ensures h.status == "ok" && h.activeWorkflows == |workflows.Keys|
  {
    Health("ok", |workflows|)
  }

  // ------------------------------------------------------------------ the registry

  /** `WORKFLOWS`, the module-level dictionary the endpoints share. */
  class WorkflowRegistry {
    var workflows: map<string, WorkflowRecord>

    constructor()
      ensures workflows == map[]
    {
      workflows := map[];
    }

    /** `add_activity_log(workflow_id, step, message)`; `timestamp` stands for the clock. */
    method AddActivityLog(id: string, step: string, message: string, timestamp: string)
      modifies this
      ensures id in old(workflows) ==>
        workflows == old(workflows)[id := old(workflows)[id].(
          activityLog := old(workflows)[id].activityLog + [LogEntry(timestamp, step, message)])]
      ensures id !in old(workflows) ==> workflows == old(workflows)
    {
      if id in workflows {
        var rec := workflows[id];
        workflows := workflows[id := rec.(activityLog := rec.activityLog + [LogEntry(timestamp, step, message)])];
      }
    }

    /** `progress_store[workflow_id].update({...})` as the nodes call it. */
    method UpdateProgress(id: string, step: string, revisionCount: int, score: real)
      requires id in workflows
      modifies this
      ensures workflows == old(workflows)[id := old(workflows)[id].(
        currentStep := step, revisionCount := revisionCount, score := score)]
    {
      workflows := workflows[id := workflows[id].(currentStep := step, revisionCount := revisionCount, score := score)];
    }

    /** `run_workflow_background(...)`. An unknown id makes the first write raise
        inside the thread, and the registry is left alone. `graphImport` is
        the outcome of the graph import; `progress` are the nodes' writes to
        the record during `graph_app.invoke`, in order. */
    method RunWorkflowBackground(id: string, companyName: string, ticker: string, timestamp: string,
                                 graphImport: Result<(), string>, progress: seq<ProgressWrite>,
                                 outcome: Result<GraphOutput, string>)
      modifies this
      ensures id in old(workflows) ==>
        workflows == old(workflows)[id := Finished(old(workflows)[id], companyName, ticker, timestamp,
                                                   graphImport, progress, outcome)]
      ensures id !in old(workflows) ==> workflows == old(workflows)
    {
      if id !in workflows {
        return;
      }
      if graphImport.Err? {
        workflows := workflows[id := workflows[id].(status := "error", error := Some(graphImport.error))];
        return;
      }
      MarkRunning(id, companyName, ticker, timestamp);
      ApplyProgress(id, progress);
      RecordOutcome(id, companyName, outcome);
    }

    /** The writes before `graph_app.invoke`: status, step, the start entry
        of the log and the idle baskets. */
    method MarkRunning(id: string, companyName: string, ticker: string, timestamp: string)
      requires id in workflows
      modifies this
      ensures workflows == old(workflows)[id := Running(old(workflows)[id], companyName, ticker, timestamp)]
    {
      workflows := workflows[id := workflows[id].(status := "running", currentStep := "researcher")];
      AddActivityLog(id, "input", StartMessage(companyName, ticker), timestamp);
      workflows := workflows[id := workflows[id].(mcpStatus := IdleBaskets)];
    }

    /** The nodes' progress writes to one record, in order, while the graph runs. */
    method ApplyProgress(id: string, progress: seq<ProgressWrite>)
      requires id in workflows
      modifies this
      ensures workflows == old(workflows)[id := Progressed(old(workflows)[id], progress)]
    {
      for i := 0 to |progress|
        invariant workflows == old(workflows)[id := Progressed(old(workflows)[id], progress[..i])]
      {
        assert progress[..i + 1][..i] == progress[..i];
        UpdateProgress(id, progress[i].step, progress[i].revisionCount, progress[i].score);
      }
      assert progress[..|progress|] == progress;
    }

    /** The writes after `graph_app.invoke` returns or raises. */
    method RecordOutcome(id: string, companyName: string, outcome: Result<GraphOutput, string>)
      requires id in workflows
      modifies this
      ensures workflows == old(workflows)[id := Settled(old(workflows)[id], companyName, outcome)]
    {
      match outcome {
        case Err(message) =>
          workflows := workflows[id := workflows[id].(status := "error", error := Some(message))];
        case Ok(out) =>
          var draft := out.draftReport.GetOr("");
          if draft.None? {
            workflows := workflows[id := workflows[id].(status := "error", error := Some(NoneSplitError))];
          } else {
            var swotData := ParseSwotText(draft.value);
            var score := out.score.GetOr(0.0);
            var revisions := out.revisionCount.GetOr(0);
            var result := AnalysisResult(companyName, score, revisions, |draft.value|, out.critique.GetOr(""),
                                         swotData, draft.value, out.dataSource.GetOr("unknown"),
                                         out.providerUsed.GetOr("unknown"));
            workflows := workflows[id := workflows[id].(status := "completed", currentStep := "completed",
                                                        revisionCount := revisions, score := score,
                                                        result := Some(result))];
          }
      }
    }

    /** `start_analysis(request)`: `id` is the fresh uuid, and the background
        thread runs to its end before the call returns. */
    method StartAnalysis(id: string, request: AnalysisRequest, timestamp: string, graphImport: Result<(), string>,
                         progress: seq<ProgressWrite>, outcome: Result<GraphOutput, string>) returns (workflowId: string)
      requires id !in workflows
      modifies this
      ensures workflowId == id
      ensures workflows == old(workflows)[id := Finished(InitialRecord(request), request.name, request.ticker,
                                                          timestamp, graphImport, progress, outcome)]
      ensures |workflows| == |old(workflows)| + 1
    {
      workflows := workflows[id := InitialRecord(request)];
      RunWorkflowBackground(id, request.name, request.ticker, timestamp, graphImport, progress, outcome);
      workflowId := id;
    }
  }

  // ------------------------------------------------------------------ the lifecycle

  /** A run always ends "completed" or "error": "completed" exactly when the
      graph was imported, returned, and its draft is not `None`. The start is
      logged after the earlier entries exactly when the import succeeded, and
      the request's fields are kept. */
  lemma RunEnds(rec: WorkflowRecord, companyName: string, ticker: string, timestamp: string,
                graphImport: Result<(), string>, progress: seq<ProgressWrite>, outcome: Result<GraphOutput, string>)
    ensures var f := Finished(rec, companyName, ticker, timestamp, graphImport, progress, outcome);
      (f.status == "completed" || f.status == "error")
      && (f.status == "completed" <==> graphImport.Ok? && outcome.Ok? && !outcome.value.draftReport.Null?)
      && (f.status == "error" ==> f.error.Some? && f.result == rec.result)
      && (graphImport.Ok? ==> f.activityLog == rec.activityLog + [LogEntry(timestamp, "input", StartMessage(companyName, ticker))])
      && (graphImport.Err? ==> f.activityLog == rec.activityLog)
      && f.companyName == rec.companyName && f.ticker == rec.ticker && f.strategyFocus == rec.strategyFocus
  {
  }

  /** When the graph import raises, the run writes only the status and the
      error: the step, counters, log and basket statuses stay as they were,
      so a fresh record stays at step "input" with no log entry. */
  lemma ImportFailureKeepsRecord(rec: WorkflowRecord, companyName: string, ticker: string, timestamp: string,
                                 message: string, progress: seq<ProgressWrite>, outcome: Result<GraphOutput, string>)
    ensures var f := Finished(rec, companyName, ticker, timestamp, Err(message), progress, outcome);
      f.status == "error" && f.error == Some(message)
      && f.currentStep == rec.currentStep && f.revisionCount == rec.revisionCount && f.score == rec.score
      && f.activityLog == rec.activityLog && f.mcpStatus == rec.mcpStatus && f.result == rec.result
  {
  }

  /** A completed run stores the parsed report, its length and the graph's counters. */
  lemma CompletedResult(rec: WorkflowRecord, companyName: string, ticker: string, timestamp: string,
                        progress: seq<ProgressWrite>, out: GraphOutput, draft: string)
    requires out.draftReport == Present(draft) || (out.draftReport == Missing && draft == "")
    ensures var f := Finished(rec, companyName, ticker, timestamp, Ok(()), progress, Ok(out));
      f.status == "completed" && f.result.Some?
      && f.result.value.swotData == ParseSwot(draft) && f.result.value.rawReport == draft
      && f.result.value.reportLength == |draft|
      && f.result.value.revisionCount == f.revisionCount == out.revisionCount.GetOr(0)
      && f.result.value.score == f.score == out.score.GetOr(0.0)
  {
  }

  /** Right after `start_analysis`, the result endpoint answers with the result
      exactly when the run completed, and with 400 and the status otherwise. */
  lemma ResultAfterStart(workflows: map<string, WorkflowRecord>, id: string, request: AnalysisRequest,
                         timestamp: string, graphImport: Result<(), string>, progress: seq<ProgressWrite>,
                         outcome: Result<GraphOutput, string>)
    ensures var after := workflows[id := Finished(InitialRecord(request), request.name, request.ticker,
                                                  timestamp, graphImport, progress, outcome)];
      (GetWorkflowResult(after, id).Ok? <==> graphImport.Ok? && outcome.Ok? && !outcome.value.draftReport.Null?)
      && (GetWorkflowResult(after, id).Ok? ==> GetWorkflowResult(after, id).value.Some?)
      && (GetWorkflowResult(after, id).Err? ==> GetWorkflowResult(after, id).error == NotCompleted("error"))
      && GetWorkflowStatus(after, id).Ok?
  {
    RunEnds(InitialRecord(request), request.name, request.ticker, timestamp, graphImport, progress, outcome);
  }

  /** A run whose graph raised keeps what the last node wrote before the
      failure: the step, counter and score of the last progress write (and
      the ones the run started with when no node wrote), while the run's own
      writes stay. */
  lemma FailedRunKeepsProgress(rec: WorkflowRecord, companyName: string, ticker: string, timestamp: string,
                               progress: seq<ProgressWrite>, message: string)
    ensures var f := Finished(rec, companyName, ticker, timestamp, Ok(()), progress, Err(message));
      f.status == "error" && f.error == Some(message) && f.mcpStatus == IdleBaskets
      && (|progress| > 0 ==> (f.currentStep == progress[|progress| - 1].step
            && f.revisionCount == progress[|progress| - 1].revisionCount
            && f.score == progress[|progress| - 1].score))
      && (|progress| == 0 ==> (f.currentStep == "researcher" && f.revisionCount == rec.revisionCount
            && f.score == rec.score))
  {
  }
}
