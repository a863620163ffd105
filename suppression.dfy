/** The suppression node of src/nodes/suppression.js: records a suppression as the final insight and stops. */
module SuppressionNode {
  import opened Wrappers
  import opened Dsl
  import opened Context

  const NoParamsError: string := "Cannot destructure property 'reason' of 'node.params' as it is undefined."

  /** `reason || 'unknown'`. */
  function ReasonOf(p: Attrs): string {
    if p.reason != "" then p.reason else "unknown"
  }

  /** The effect of the node on a context value. */
  function Step(node: Node, s: Ctx): (o: Outcome)
    ensures o.result.Ok? <==> node.params.Some?
    ensures o.result.Ok? ==>
              o.result.value == Done &&
              o.ctx.finalInsight == Some(SuppressedInsight(ReasonOf(node.params.value)))
    ensures o.result.Err? ==> o.result.message == NoParamsError && o.ctx == s
    ensures o.ctx.(finalInsight := s.finalInsight) == s
  {
    match node.params
    case None => Outcome(Err(NoParamsError), s)
    case Some(p) => Outcome(Ok(Done), s.(finalInsight := Some(SuppressedInsight(ReasonOf(p)))))
  }

  /** `execute(node, context)`, assigning `final_insight` in place. */
  method Execute(node: Node, c: ExecutionContext) returns (r: Result<Transition>)
    modifies c
    ensures r == Step(node, old(c.State())).result
    ensures c.State() == Step(node, old(c.State())).ctx
  {
    if node.params.None? {
      return Err(NoParamsError);
    }
    c.finalInsight := Some(SuppressedInsight(ReasonOf(node.params.value)));
    return Ok(Done);
  }
}
