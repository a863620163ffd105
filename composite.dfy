/** The composite node of src/nodes/composite.js: a jump to `params.start_node_id`. */
module CompositeNode {
  import opened Wrappers
  import opened Dsl
  import opened Context

  /** The TypeError thrown when the node has no `params`. */
  const NoParamsError: string := "Cannot read properties of undefined (reading 'start_node_id')"

  function Execute(node: Node): (r: Result<Transition>)
    ensures r.Ok? <==> node.params.Some?
    ensures r.Ok? ==> r.value == Success(node.params.value.startNodeId)
    ensures r.Err? ==> r.message == NoParamsError
  {
    match node.params
    case None => Err(NoParamsError)
    case Some(p) => Ok(Success(p.startNodeId))
  }

  /** The node's own `next` plays no part. */
  lemma IgnoresNext(node: Node, other: string)
    ensures Execute(node.(next := other)) == Execute(node)
  {
  }
}
