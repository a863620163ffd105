/**
 * The error-list validator of src/core/validator.js, the one the engine runs
 * before it executes a workflow. It reports a missing workflow `id` or
 * `version`, a missing `nodes` array (and then stops), an empty one, and for
 * each node a missing `id`, a missing `type` and a `next` that names no node.
 * Duplicate ids, unknown types, cycles and a missing validation node are not
 * its concern.
 */
module Validator {
  import opened Wrappers
  import opened Dsl

  /** One reported problem; `Message` gives its text. */
  datatype Problem =
    | MissingWorkflowId
    | MissingVersion
    | MissingNodes
    | NoNodes
    | MissingNodeId(json: string)
    | MissingType(id: string)
    | DanglingNext(id: string, next: string)

  /** `${node.id}` in a message: a missing id prints as "undefined". */
  function IdText(id: string): string {
    if id == "" then "undefined" else id
  }

  /** The text pushed onto `errors`. */
  function Message(p: Problem): string {
    match p
    case MissingWorkflowId => "Workflow missing \"id\""
    case MissingVersion => "Workflow missing \"version\""
    case MissingNodes => "Workflow missing \"nodes\" array"
    case NoNodes => "Workflow must have at least one node"
    case MissingNodeId(json) => "Node missing \"id\": " + json
    case MissingType(id) => "Node " + IdText(id) + " missing \"type\""
    case DanglingNext(id, next) => "Node " + IdText(id) + " points to non-existent next node \"" + next + "\""
  }

  /** The texts of a list of problems, in order. */
  function Messages(ps: seq<Problem>): (r: seq<string>)
    ensures |r| == |ps| && forall i :: 0 <= i < |ps| ==> r[i] == Message(ps[i])
  {
    seq(|ps|, i requires 0 <= i < |ps| => Message(ps[i]))
  }

  /** `new Set(workflow.nodes.map(n => n.id))`. */
  function Ids(nodes: seq<Node>): set<string> {
    set i | 0 <= i < |nodes| :: nodes[i].id
  }

  /** What the per-node checks accept. */
  predicate NodeOk(n: Node, ids: set<string>) {
    n.id != "" && n.kind != "" && (n.next != "" ==> n.next in ids)
  }

  /** The errors one node adds, in the order they are pushed. */
  function NodeErrors(n: Node, ids: set<string>, json: Node -> string): (errors: seq<Problem>)
    ensures errors == [] <==> NodeOk(n, ids)
  {
    (if n.id == "" then [MissingNodeId(json(n))] else [])
    + (if n.kind == "" then [MissingType(n.id)] else [])
    + (if n.next != "" && n.next !in ids then [DanglingNext(n.id, n.next)] else [])
  }

  /** The errors of the `forEach` over the nodes, node after node. */
  function AllNodeErrors(nodes: seq<Node>, ids: set<string>, json: Node -> string): seq<Problem>
    decreases |nodes|
  {
    if nodes == [] then []
    else AllNodeErrors(nodes[..|nodes| - 1], ids, json) + NodeErrors(nodes[|nodes| - 1], ids, json)
  }

  /** The two workflow-level checks. */
  function HeaderErrors(w: Workflow): seq<Problem> {
    (if w.id == "" then [MissingWorkflowId] else []) + (if w.version == 0 then [MissingVersion] else [])
  }

  /** `validateWorkflow(workflow)`: the list of errors, empty when the workflow passes. */
  function Errors(w: Workflow, json: Node -> string): seq<Problem> {
    match w.nodes
    case None => HeaderErrors(w) + [MissingNodes]
    case Some(nodes) =>
      HeaderErrors(w) + (if nodes == [] then [NoNodes] else []) + AllNodeErrors(nodes, Ids(nodes), json)
  }

  /** The per-node errors are empty exactly when every node passes its checks. */
  lemma {:induction false} AllNodeErrorsEmpty(nodes: seq<Node>, ids: set<string>, json: Node -> string)
    ensures AllNodeErrors(nodes, ids, json) == [] <==> forall i :: 0 <= i < |nodes| ==> NodeOk(nodes[i], ids)
    decreases |nodes|
  {
    if nodes != [] {
      var init := nodes[..|nodes| - 1];
      AllNodeErrorsEmpty(init, ids, json);
      assert forall i :: 0 <= i < |init| ==> init[i] == nodes[i];
    }
  }

  /** Every per-node error is about a node. */
  lemma {:induction false} AllNodeErrorsFromNodes(nodes: seq<Node>, ids: set<string>, json: Node -> string)
    ensures forall p :: p in AllNodeErrors(nodes, ids, json) ==> p.MissingNodeId? || p.MissingType? || p.DanglingNext?
    decreases |nodes|
  {
    if nodes != [] {
      AllNodeErrorsFromNodes(nodes[..|nodes| - 1], ids, json);
    }
  }

  /** Each node's own errors all appear among the per-node errors. */
  lemma {:induction false} AllNodeErrorsInclude(nodes: seq<Node>, ids: set<string>, json: Node -> string, i: nat)
    requires i < |nodes|
    ensures forall e :: e in NodeErrors(nodes[i], ids, json) ==> e in AllNodeErrors(nodes, ids, json)
    decreases |nodes|
  {
    var init := nodes[..|nodes| - 1];
    if i < |init| {
      AllNodeErrorsInclude(init, ids, json, i);
      assert init[i] == nodes[i];
    }
  }

  /**
   * The list is empty iff the workflow has an `id` and a `version`, a
   * non-empty `nodes` array, and every node has an `id`, a `type` and a
   * `next` that is absent or names a node.
   */
  lemma EmptyIff(w: Workflow, json: Node -> string)
    ensures Errors(w, json) == [] <==>
              w.id != "" && w.version != 0 && w.nodes.Some? && w.nodes.value != [] &&
              forall i :: 0 <= i < |w.nodes.value| ==> NodeOk(w.nodes.value[i], Ids(w.nodes.value))
  {
    if w.nodes.Some? {
      AllNodeErrorsEmpty(w.nodes.value, Ids(w.nodes.value), json);
    }
  }

  /** Without a `nodes` array the list ends with that error, holds at most three, and no node is checked. */
  lemma MissingNodesStops(w: Workflow, json: Node -> string)
    requires w.nodes.None?
    ensures var errors := Errors(w, json);
            1 <= |errors| <= 3 && errors[|errors| - 1] == MissingNodes &&
            forall e :: e in errors ==> e == MissingWorkflowId || e == MissingVersion || e == MissingNodes
  {
  }

  /** A missing workflow `id` or `version` is reported, and only then; an empty `nodes` array is reported. */
  lemma HeaderReported(w: Workflow, json: Node -> string)
    ensures MissingWorkflowId in Errors(w, json) <==> w.id == ""
    ensures MissingVersion in Errors(w, json) <==> w.version == 0
    ensures w.nodes == Some([]) ==> NoNodes in Errors(w, json)
  {
    if w.nodes.Some? {
      var nodes := w.nodes.value;
      AllNodeErrorsFromNodes(nodes, Ids(nodes), json);
    }
  }

  /** Each node with a missing `id`, a missing `type` or a dangling `next` has that error in the list. */
  lemma NodeFaultsReported(w: Workflow, json: Node -> string, i: nat)
    requires w.nodes.Some? && i < |w.nodes.value|
    ensures var n := w.nodes.value[i];
            (n.id == "" ==> MissingNodeId(json(n)) in Errors(w, json)) &&
            (n.kind == "" ==> MissingType(n.id) in Errors(w, json)) &&
            (n.next != "" && n.next !in Ids(w.nodes.value) ==> DanglingNext(n.id, n.next) in Errors(w, json))
  {
    var nodes := w.nodes.value;
    AllNodeErrorsInclude(nodes, Ids(nodes), json, i);
  }

  /** The body of the `forEach`: one node's checks, each pushing its error. */
  method CheckNode(errors: seq<Problem>, node: Node, nodeIds: set<string>, json: Node -> string) returns (after: seq<Problem>)
    ensures after == errors + NodeErrors(node, nodeIds, json)
  {
    after := errors;
    if node.id == "" {
      after := after + [MissingNodeId(json(node))];
    }
    if node.kind == "" {
      after := after + [MissingType(node.id)];
    }
    if node.next != "" {
      if node.next !in nodeIds {
        after := after + [DanglingNext(node.id, node.next)];
      }
    }
  }

  /** `workflow.nodes.forEach(...)`: every node checked in turn. */
  method CheckNodes(errors: seq<Problem>, nodes: seq<Node>, nodeIds: set<string>, json: Node -> string) returns (after: seq<Problem>)
    ensures after == errors + AllNodeErrors(nodes, nodeIds, json)
  {
    after := errors;
    var i := 0;
    while i < |nodes|
      invariant 0 <= i <= |nodes|
      invariant after == errors + AllNodeErrors(nodes[..i], nodeIds, json)
    {
      assert nodes[..i + 1][..i] == nodes[..i];
      after := CheckNode(after, nodes[i], nodeIds, json);
      i := i + 1;
    }
    assert nodes[..|nodes|] == nodes;
  }

  /**
   * `validateWorkflow(workflow)`: the checks push their errors in order, and
   * the answer is their texts.
   */
  method ValidateWorkflow(w: Workflow, json: Node -> string) returns (errors: seq<string>)
    ensures errors == Messages(Errors(w, json))
  {
    var problems: seq<Problem> := [];
    if w.id == "" {
      problems := problems + [MissingWorkflowId];
    }
    if w.version == 0 {
      problems := problems + [MissingVersion];
    }
    if w.nodes.None? {
      problems := problems + [MissingNodes];
    } else {
      var nodes := w.nodes.value;
      if |nodes| == 0 {
        problems := problems + [NoNodes];
      }
      problems := CheckNodes(problems, nodes, Ids(nodes), json);
    }
    errors := Messages(problems);
  }
}
