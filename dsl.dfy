/**
 * The workflow definition as the engine reads it: nodes with an id, a type
 * tag, an optional `next` pointer, branch `routes`, the attributes a node
 * may carry at top level (the "flat" schema) and the same attributes under
 * `params` (the legacy schema).
 *
 * An absent string attribute is "", which JavaScript treats like a missing
 * one wherever the engine tests it for truthiness.
 */
module Dsl {
  import opened Wrappers
  import opened Js

  /** The `if` of a branch rule: an expression string, a `{ field, op, value }` object, or anything else. */
  datatype Cond = Expr(text: string) | Structured(field: string, op: string, value: Value) | NoCond

  datatype Rule = Rule(cond: Cond, next: string)

  /** A legacy `params.conditions` entry: `{ field, op, value, next }`. */
  datatype LegacyCondition = LegacyCondition(field: string, op: string, value: Value, next: string)

  /** `default_next`: absent, a node id, or `{ action: 'terminate', reason }`. */
  datatype DefaultNext = NoDefault | DefaultTo(id: string) | TerminateDefault(reason: string)

  /** The attributes a node may carry, at top level or under `params`. */
  datatype Attrs = Attrs(
    minDropPct: Option<real>,
    rules: Option<seq<Rule>>,
    conditions: Option<seq<LegacyCondition>>,
    defaultNext: DefaultNext,
    dimensions: Option<seq<string>>,
    dimension: string,
    startNodeId: string,
    reason: string)

  const NoAttrs: Attrs := Attrs(None, None, None, NoDefault, None, "", "", "")

  datatype Node = Node(id: string, kind: string, next: string, routes: seq<string>, flat: Attrs, params: Option<Attrs>)

  /** `node.params || {}`. */
  function ParamsOrEmpty(node: Node): Attrs {
    node.params.GetOr(NoAttrs)
  }

  /** A workflow; `version` 0 stands for a missing or falsy version, `nodes` None for a missing array. */
  datatype Workflow = Workflow(id: string, version: nat, nodes: Option<seq<Node>>, startNode: string)

  /** `nodes.find(n => n.id === id)`. */
  function FindById(nodes: seq<Node>, id: string): (r: Option<Node>)
    ensures r.Some? ==> r.value.id == id
    decreases |nodes|
  {
    if nodes == [] then None
    else if nodes[0].id == id then Some(nodes[0])
    else FindById(nodes[1..], id)
  }

  /** `find` answers the first node with the id, and nothing exactly when no node has it. */
  lemma {:induction false} FindByIdFirst(nodes: seq<Node>, id: string)
    ensures var r := FindById(nodes, id);
            (r.Some? ==> exists i :: 0 <= i < |nodes| && nodes[i] == r.value &&
                           forall j :: 0 <= j < i ==> nodes[j].id != id) &&
            (r.None? <==> forall i :: 0 <= i < |nodes| ==> nodes[i].id != id)
    decreases |nodes|
  {
    if nodes != [] && nodes[0].id != id {
      FindByIdFirst(nodes[1..], id);
      assert forall i :: 1 <= i < |nodes| ==> nodes[i] == nodes[1..][i - 1];
      if FindById(nodes, id).Some? {
        var i :| 0 <= i < |nodes[1..]| && nodes[1..][i] == FindById(nodes, id).value &&
                 forall j :: 0 <= j < i ==> nodes[1..][j].id != id;
        assert nodes[i + 1] == FindById(nodes, id).value;
      }
    }
  }

  /** `nodes.find(n => n.type === kind)`. */
  function FirstOfKind(nodes: seq<Node>, kind: string): (r: Option<Node>)
    ensures r.Some? ==> r.value.kind == kind
    decreases |nodes|
  {
    if nodes == [] then None
    else if nodes[0].kind == kind then Some(nodes[0])
    else FirstOfKind(nodes[1..], kind)
  }

  /** `find` answers the first node of the type, and nothing exactly when no node has it. */
  lemma {:induction false} FirstOfKindFirst(nodes: seq<Node>, kind: string)
    ensures var r := FirstOfKind(nodes, kind);
            (r.Some? ==> exists i :: 0 <= i < |nodes| && nodes[i] == r.value &&
                           forall j :: 0 <= j < i ==> nodes[j].kind != kind) &&
            (r.None? <==> forall i :: 0 <= i < |nodes| ==> nodes[i].kind != kind)
    decreases |nodes|
  {
    if nodes != [] && nodes[0].kind != kind {
      FirstOfKindFirst(nodes[1..], kind);
      assert forall i :: 1 <= i < |nodes| ==> nodes[i] == nodes[1..][i - 1];
      if FirstOfKind(nodes, kind).Some? {
        var i :| 0 <= i < |nodes[1..]| && nodes[1..][i] == FirstOfKind(nodes, kind).value &&
                 forall j :: 0 <= j < i ==> nodes[1..][j].kind != kind;
        assert nodes[i + 1] == FirstOfKind(nodes, kind).value;
      }
    }
  }
}
