/** The Critic node: asks the language model to grade the draft and stores the
    grade and its reasoning in the state, with a fixed fallback when the reply
    is not a JSON object. */
module Critic {
  import opened Wrappers
  import opened AgentStates

  /** The fields of a reply that decoded to a JSON object; a key the object
      lacks is `None`. */
  datatype CriticReply = CriticReply(score: Option<real>, reasoning: Option<string>)

  const NoReasoning := "No reasoning provided"
  const ParseFailureCritique := "Evaluation failed - could not parse response"
  const ParseFailureScore: real := 5.0

  /** The score a Critic run assigns for a decoded reply (`None`: not JSON, or
      JSON that is not an object). */
  function AssignedScore(reply: Option<CriticReply>): (s: real)
    ensures reply.None? ==> s == ParseFailureScore
    ensures reply.Some? && reply.value.score.Some? ==> s == reply.value.score.value
    ensures reply.Some? && reply.value.score.None? ==> s == 0.0
  {
    match reply
    case None => ParseFailureScore
    case Some(r) => r.score.GetOr(0.0)
  }

  /** The critique a Critic run assigns. */
  function AssignedCritique(reply: Option<CriticReply>): (c: string)
    ensures reply.None? ==> c == ParseFailureCritique
    ensures reply.Some? && reply.value.reasoning.Some? ==> c == reply.value.reasoning.value
    ensures reply.Some? && reply.value.reasoning.None? ==> c == NoReasoning
  {
    match reply
    case None => ParseFailureCritique
    case Some(r) => r.reasoning.GetOr(NoReasoning)
  }

  /** `critic_node(state)`: `judge` is the model call and the decoding of its
      answer, as a function of the draft it is shown. Only the critique and
      the score are written. */
  method CriticNode(state: AgentState, judge: Option<string> -> Option<CriticReply>)
    modifies state`critique, state`score
    ensures state.critique == Some(AssignedCritique(judge(state.draftReport)))
    ensures state.score == Some(AssignedScore(judge(state.draftReport)))
  {
    var reply := judge(state.draftReport);
    match reply {
      case Some(parsed) =>
        state.critique := Some(parsed.reasoning.GetOr(NoReasoning));
        state.score := Some(parsed.score.GetOr(0.0));
      case None =>
        state.critique := Some(ParseFailureCritique);
        state.score := Some(ParseFailureScore);
    }
  }
}
