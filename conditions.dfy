/** The exit rule of the self-correcting loop: after each Critic run the graph
    either ends ("exit") or sends the draft to the Editor ("retry"). */
module Conditions {
  import opened Wrappers

  /** The two labels `should_continue` can return. */
  datatype Route = Exit | Retry

  /** A draft scoring at least this is good enough. */
  const QualityThreshold: real := 7.0

  /** After this many Editor revisions the loop stops whatever the score. */
  const MaxRevisions: int := 3

  /** `should_continue(state)`, given the two state reads; `None` is an absent key,
      which the source reads as 0. */
  function ShouldContinue(score: Option<real>, revisionCount: Option<int>): (r: Route)
    ensures score.Some? && score.value >= QualityThreshold ==> r == Exit
    ensures revisionCount.Some? && revisionCount.value >= MaxRevisions ==> r == Exit
    ensures r == Retry <==> score.GetOr(0.0) < QualityThreshold && revisionCount.GetOr(0) < MaxRevisions
    ensures score == None && revisionCount == None ==> r == Retry
  {
    var currentScore := score.GetOr(0.0);
    var revisions := revisionCount.GetOr(0);
    if currentScore >= QualityThreshold || revisions >= MaxRevisions then Exit else Retry
  }
}
