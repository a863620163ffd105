/** The defer node of src/nodes/defer.js: records a deferral as the final insight and stops. */
module DeferNode {
  import opened Wrappers
  import opened Dsl
  import opened Context

  const NoParamsError: string := "Cannot destructure property 'reason' of 'node.params' as it is undefined."

  /** `reason || 'insufficient_data'`. */
  function ReasonOf(p: Attrs): string {
    if p.reason != "" then p.reason else "insufficient_data"
  }

  /** The effect of the node on a context value. */
  function Step(node: Node, s: Ctx): (o: Outcome)
    ensures o.result.Ok? <==> node.params.Some?
    ensures o.result.Ok? ==>
              o.result.value == Done &&
              o.ctx.finalInsight == Some(DeferredInsight(ReasonOf(node.params.value)))
    ensures o.result.Err? ==> o.result.message == NoParamsError && o.ctx == s
    ensures o.ctx.(finalInsight := s.finalInsight) == s
  {
    match node.params
    case None => Outcome(Err(NoParamsError), s)
    case Some(p) => Outcome(Ok(Done), s.(finalInsight := Some(DeferredInsight(ReasonOf(p)))))
  }

  /** `execute(node, context)`, assigning `final_insight` in place. */
  method Execute(node: Node, c: ExecutionContext) returns (r: Result<Transition>)
    modifies c
    ensures r == Step(node, old(c.State())).result
    ensures c.State() == Step(node, old(c.State())).ctx
  {
    if node.params.None? {
      return Err(NoParamsError);
    }
    c.finalInsight := Some(DeferredInsight(ReasonOf(node.params.value)));
    return Ok(Done);
  }
}
