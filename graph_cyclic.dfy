/** The self-correcting workflow graph: Researcher → Analyst → Critic, then
    either the end or Editor → Critic again, as the exit rule decides. The
    language-model calls of the four nodes are functions passed in. */
module GraphCyclic {
  import opened Wrappers
  import opened Conditions
  import opened AgentStates
  import CriticStep = Critic
  import EditorStep = EditorV2

  /** The graph's nodes; `End` is LangGraph's `__end__`. */
  datatype Node = Researcher | Analyst | Critic | Editor | End

  /** `set_entry_point("Researcher")` */
  const Entry: Node := Researcher

  /** The edges the graph is built with. */
  function Successors(n: Node): set<Node> {
    match n
    case Researcher => {Analyst}
    case Analyst => {Critic}
    case Critic => {End, Editor}
    case Editor => {Critic}
    case End => {}
  }

  /** The node run after `n` (not `End`); `route` is the answer of the exit
      rule, consulted only after Critic. */
  function Next(n: Node, route: Route): (m: Node)
    requires n != End
    ensures m in Successors(n)
  {
    match n
    case Researcher => Analyst
    case Analyst => Critic
    case Critic => if route == Exit then End else Editor
    case Editor => Critic
  }

  /** Every edge of the graph is taken on some route, and after Critic "exit"
      ends the run while "retry" goes to the Editor. */
  lemma EdgesAreTaken(n: Node, m: Node)
    requires m in Successors(n)
    ensures n != End && exists r :: Next(n, r) == m
    ensures n == Critic ==> (m == End <==> Next(n, Exit) == m) && (m == Editor <==> Next(n, Retry) == m)
  {
    if n == Critic && m == Editor {
      assert Next(n, Retry) == m;
    } else {
      assert Next(n, Exit) == m;
    }
  }

  /** A path through the graph: each node is followed by one of its successors. */
  predicate IsPath(p: seq<Node>) {
    forall i | 0 <= i < |p| - 1 :: p[i + 1] in Successors(p[i])
  }

  /** On a closed path every position has a predecessor on the path ... */
  lemma PredecessorOnCycle(p: seq<Node>, i: nat) returns (j: nat)
    requires |p| >= 2 && p[0] == p[|p| - 1] && IsPath(p) && i < |p|
    ensures j < |p| && p[i] in Successors(p[j])
  {
    if i == 0 {
      j := |p| - 2;
      assert p[j + 1] in Successors(p[j]);
    } else {
      j := i - 1;
      assert p[j + 1] in Successors(p[j]);
    }
  }

  /** ... and a successor on the path. */
  lemma SuccessorOnCycle(p: seq<Node>, i: nat) returns (j: nat)
    requires |p| >= 2 && p[0] == p[|p| - 1] && IsPath(p) && i < |p|
    ensures j < |p| && p[j] in Successors(p[i])
  {
    if i == |p| - 1 {
      j := 1;
      assert p[1] in Successors(p[0]);
    } else {
      j := i + 1;
      assert p[i + 1] in Successors(p[i]);
    }
  }

  /** The only cycle is Critic → Editor → Critic: every node of a closed path
      is Critic or Editor. Researcher has no predecessor, Analyst's only
      predecessor is Researcher, and End has no successor. */
  lemma OnlyCycle(p: seq<Node>)
    requires |p| >= 2 && p[0] == p[|p| - 1] && IsPath(p)
    ensures forall i | 0 <= i < |p| :: p[i] == Critic || p[i] == Editor
  {
    forall i | 0 <= i < |p|
      ensures p[i] == Critic || p[i] == Editor
    {
      var pred := PredecessorOnCycle(p, i);
      var predOfPred := PredecessorOnCycle(p, pred);
      var succ := SuccessorOnCycle(p, i);
    }
  }

  /** Editor runs never let the counter pass the cap. */
  function Measure(n: Node): nat {
    match n
    case Researcher => 4
    case Analyst => 3
    case Critic => 2
    case Editor => 1
    case End => 0
  }

  /** `run_self_correcting_workflow(company_name)` followed by `app.invoke`:
      `research` and `analyze` stand for the Researcher and Analyst nodes,
      `judge` and `revise` for the Critic's and the Editor's model calls.
      Returns the final state and how often the Editor and the Critic ran. */
  method RunSelfCorrectingWorkflow(
      companyName: string,
      research: string -> Option<string>,
      analyze: Option<string> -> string,
      judge: Option<string> -> Option<CriticStep.CriticReply>,
      revise: (Option<string>, Option<string>) -> string)
    returns (state: AgentState, editorRuns: nat, criticRuns: nat)
    ensures fresh(state)
    ensures editorRuns <= MaxRevisions && criticRuns == editorRuns + 1
    ensures state.revisionCount == Some(editorRuns)
    ensures ShouldContinue(state.score, state.revisionCount) == Exit
    // the first draft is good enough exactly when the Editor never runs
    ensures CriticStep.AssignedScore(judge(Some(analyze(research(companyName))))) >= QualityThreshold
            <==> editorRuns == 0
    // replies that never parse keep the loop going until the revision cap
    ensures (forall d :: judge(d).None?) ==> editorRuns == MaxRevisions
  {
    state := new AgentState.Initial(companyName);
    var node := Entry;
    editorRuns := 0;
    criticRuns := 0;
    ghost var firstDraft := Some(analyze(research(companyName)));
    ghost var firstScore := CriticStep.AssignedScore(judge(firstDraft));
    ghost var neverParses := forall d :: judge(d).None?;
    while node != End
      invariant state.companyName == companyName
      invariant state.revisionCount == Some(editorRuns) && editorRuns <= MaxRevisions
      invariant node == Researcher ==> criticRuns == 0 && editorRuns == 0
      invariant node == Analyst ==> criticRuns == 0 && editorRuns == 0 && state.rawData == research(companyName)
      invariant node == Critic ==> criticRuns == editorRuns
      invariant node == Critic && criticRuns == 0 ==> state.draftReport == firstDraft
      invariant node == Editor || node == End ==> criticRuns == editorRuns + 1
      invariant node == Editor ==> editorRuns < MaxRevisions
      invariant node == End ==> ShouldContinue(state.score, state.revisionCount) == Exit
      invariant criticRuns >= 1 && firstScore >= QualityThreshold ==> node == End && editorRuns == 0
      invariant criticRuns >= 1 && firstScore < QualityThreshold ==> editorRuns >= 1 || node == Editor
      invariant neverParses && node == End ==> editorRuns == MaxRevisions
      decreases MaxRevisions - editorRuns, Measure(node)
    {
      match node {
        case Researcher =>
          state.rawData := research(state.companyName);
        case Analyst =>
          state.draftReport := Some(analyze(state.rawData));
        case Critic =>
          CriticStep.CriticNode(state, judge);
          criticRuns := criticRuns + 1;
        case Editor =>
          var _ := EditorStep.EditorNode(state, revise);
          editorRuns := editorRuns + 1;
      }
      node := Next(node, ShouldContinue(state.score, state.revisionCount));
    }
  }
}
