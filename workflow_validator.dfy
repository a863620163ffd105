/**
 * The strict validator of src/core/workflow-validator.js, run when a
 * workflow is saved: bounds on the node list, unique ids, the type
 * whitelist, the start node, dangling `next` and branch `routes` pointers,
 * and a depth-first search from the start node that rejects a reachable
 * cycle and a path deeper than 20. The first failed check is thrown; a
 * workflow that passes them all is answered with `true`.
 */
module WorkflowValidator {
  import opened Wrappers
  import opened Dsl
  import Registry

  const MaxNodes: nat := 50
  const MaxDepth: nat := 20

  /** `ALLOWED_NODE_TYPES`. */
  const AllowedNodeTypes: set<string> :=
    {"metric_compare", "branch", "recursive_dimension_breakdown", "drill_down", "suppression",
     "defer", "confidence", "insight", "composite", "validation"}

  /** The reason a workflow is rejected; `Message` gives the text thrown. */
  datatype Rejection =
    | NodesNotArray
    | NoNodes
    | TooManyNodes
    | MissingId
    | DuplicateId(id: string)
    | NoStart
    | StartNotFound(id: string)
    | MissingType(id: string)
    | InvalidType(id: string, kind: string)
    | DanglingNext(id: string, next: string)
    | DanglingRoute(id: string, route: string)
    | DepthExceeded(id: string)
    | LoopDetected(id: string)
    | UndefinedNode

  function Message(r: Rejection): string {
    match r
    case NodesNotArray => "Workflow \"nodes\" must be an array"
    case NoNodes => "Workflow must have at least one node"
    case TooManyNodes => "Workflow exceeds maximum node limit of 50"
    case MissingId => "All nodes must have an \"id\" property"
    case DuplicateId(id) => "Duplicate node id \"" + id + "\""
    case NoStart => "Missing \"start_node\" and no \"validation\" node found"
    case StartNotFound(id) => "Start node \"" + id + "\" not found in nodes"
    case MissingType(id) => "Node \"" + id + "\" missing \"type\""
    case InvalidType(id, kind) => "Node \"" + id + "\" has invalid type \"" + kind + "\""
    case DanglingNext(id, next) => "Node \"" + id + "\" points to non-existent next node \"" + next + "\""
    case DanglingRoute(id, route) => "Branch node \"" + id + "\" points to non-existent route \"" + route + "\""
    case DepthExceeded(id) => "Max workflow depth exceeded at node \"" + id + "\""
    case LoopDetected(id) => "Infinite loop detected involving node \"" + id + "\""
    case UndefinedNode => "Cannot read properties of undefined (reading 'next')"
  }

  /** The whitelist holds the ten type names and nothing else. */
  lemma AllowedTags(tag: string)
    requires tag in AllowedNodeTypes
    ensures tag == "validation" || tag == "metric_compare" || tag == "branch"
         || tag == "recursive_dimension_breakdown" || tag == "drill_down" || tag == "composite"
         || tag == "insight" || tag == "suppression" || tag == "confidence" || tag == "defer"
  {
  }

  /** Every whitelisted type has an executor in the registry. */
  lemma WhitelistedIsRegistered(tag: string)
    requires tag in AllowedNodeTypes
    ensures Registry.GetNodeExecutor(tag).Some?
  {
    AllowedTags(tag);
    if tag == "validation" { Registry.Lookup("validation", Registry.Validation); }
    else if tag == "metric_compare" { Registry.Lookup("metric_compare", Registry.MetricCompare); }
    else if tag == "branch" { Registry.Lookup("branch", Registry.Branch); }
    else if tag == "recursive_dimension_breakdown" { Registry.Lookup("recursive_dimension_breakdown", Registry.Breakdown); }
    else if tag == "drill_down" { Registry.Lookup("drill_down", Registry.DrillDown); }
    else if tag == "composite" { Registry.Lookup("composite", Registry.Composite); }
    else if tag == "insight" { Registry.Lookup("insight", Registry.Insight); }
    else if tag == "suppression" { Registry.Lookup("suppression", Registry.Suppression); }
    else if tag == "confidence" { Registry.Lookup("confidence", Registry.Confidence); }
    else { Registry.Lookup("defer", Registry.Defer); }
  }

  /** Every type the registry knows is whitelisted. */
  lemma RegisteredIsWhitelisted(tag: string)
    requires Registry.GetNodeExecutor(tag).Some?
    ensures tag in AllowedNodeTypes
  {
    match Registry.GetNodeExecutor(tag).value
    case Validation =>
    case MetricCompare =>
    case Branch =>
    case Breakdown =>
    case DrillDown =>
    case Composite =>
    case Insight =>
    case Suppression =>
    case Confidence =>
    case Defer =>
  }

  /** The whitelist is exactly the set of tags the node registry knows. */
  lemma WhitelistIsRegistry(tag: string)
    ensures tag in AllowedNodeTypes <==> Registry.GetNodeExecutor(tag).Some?
  {
    if tag in AllowedNodeTypes {
      WhitelistedIsRegistered(tag);
    }
    if Registry.GetNodeExecutor(tag).Some? {
      RegisteredIsWhitelisted(tag);
    }
  }

  // ----- The node map -----

  /** `nodeMap`, filled by the `forEach`; a later node with the same id overwrites an earlier one. */
  function NodeMap(nodes: seq<Node>): (m: map<string, Node>)
    ensures forall id :: id in m <==> exists i :: 0 <= i < |nodes| && nodes[i].id == id
    decreases |nodes|
  {
    if nodes == [] then map[]
    else
      var init := nodes[..|nodes| - 1];
      var m := NodeMap(init);
      assert forall i :: 0 <= i < |init| ==> init[i] == nodes[i];
      m[nodes[|nodes| - 1].id := nodes[|nodes| - 1]]
  }

  /** The first node in the `forEach` without an id or with an id seen before. */
  function IdError(nodes: seq<Node>): Option<Rejection>
    decreases |nodes|
  {
    if nodes == [] then None
    else
      var init := nodes[..|nodes| - 1];
      var n := nodes[|nodes| - 1];
      match IdError(init)
      case Some(r) => Some(r)
      case None =>
        if n.id == "" then Some(MissingId)
        else if n.id in NodeMap(init) then Some(DuplicateId(n.id))
        else None
  }

  /** Ids that are all present and pairwise distinct. */
  predicate UniqueIds(nodes: seq<Node>) {
    (forall i :: 0 <= i < |nodes| ==> nodes[i].id != "") &&
    (forall i, j :: 0 <= i < j < |nodes| ==> nodes[i].id != nodes[j].id)
  }

  /** The `forEach` throws nothing exactly when the ids are present and distinct. */
  lemma {:induction false} IdErrorNone(nodes: seq<Node>)
    ensures IdError(nodes) == None <==> UniqueIds(nodes)
    decreases |nodes|
  {
    if nodes != [] {
      IdErrorNone(nodes[..|nodes| - 1]);
      UniqueIdsSnoc(nodes);
    }
  }

  /** Ids stay unique after one more node exactly when its id is present and new. */
  lemma UniqueIdsSnoc(nodes: seq<Node>)
    requires nodes != []
    ensures var init := nodes[..|nodes| - 1];
            var n := nodes[|nodes| - 1];
            UniqueIds(nodes) <==> UniqueIds(init) && n.id != "" && n.id !in NodeMap(init)
  {
    var init := nodes[..|nodes| - 1];
    assert forall i :: 0 <= i < |init| ==> init[i] == nodes[i];
  }

  /** With distinct ids the map sends each id to its own node. */
  lemma {:induction false} NodeMapLookup(nodes: seq<Node>, i: nat)
    requires UniqueIds(nodes) && i < |nodes|
    ensures nodes[i].id in NodeMap(nodes) && NodeMap(nodes)[nodes[i].id] == nodes[i]
    decreases |nodes|
  {
    var init := nodes[..|nodes| - 1];
    if i < |init| {
      assert UniqueIds(init) by {
        assert forall k :: 0 <= k < |init| ==> init[k] == nodes[k];
      }
      NodeMapLookup(init, i);
      assert init[i] == nodes[i];
    }
  }

  // ----- The start node -----

  /** `json.start_node`, or else the id of the first validation node. */
  function StartNode(w: Workflow, nodes: seq<Node>): (r: Result<string>)
    ensures r.Ok? && w.startNode != "" ==> r.value == w.startNode
    ensures r.Ok? && w.startNode == "" ==>
              FirstOfKind(nodes, "validation").Some? && r.value == FirstOfKind(nodes, "validation").value.id
    ensures r.Err? <==> w.startNode == "" && forall i :: 0 <= i < |nodes| ==> nodes[i].kind != "validation"
  {
    FirstOfKindFirst(nodes, "validation");
    if w.startNode != "" then Ok(w.startNode)
    else match FirstOfKind(nodes, "validation")
      case Some(n) => Ok(n.id)
      case None => Err(Message(NoStart))
  }

  // ----- The per-node checks -----

  /** The first route of a branch node that names no node. */
  function RouteError(n: Node, routes: seq<string>, m: map<string, Node>): (r: Option<Rejection>)
    ensures r.None? <==> forall k :: 0 <= k < |routes| ==> routes[k] in m
  {
    if routes == [] then None
    else if routes[0] !in m then Some(DanglingRoute(n.id, routes[0]))
    else RouteError(n, routes[1..], m)
  }

  /** What the checks of one node accept. */
  predicate NodeOk(n: Node, m: map<string, Node>) {
    n.kind in AllowedNodeTypes &&
    (n.next != "" ==> n.next in m) &&
    (n.kind == "branch" ==> forall k :: 0 <= k < |n.routes| ==> n.routes[k] in m)
  }

  /** The checks of one node: its type, its `next`, and the routes of a branch. */
  function NodeError(n: Node, m: map<string, Node>): (r: Option<Rejection>)
    ensures r.None? <==> NodeOk(n, m)
  {
    if n.kind == "" then Some(MissingType(n.id))
    else if n.kind !in AllowedNodeTypes then Some(InvalidType(n.id, n.kind))
    else if n.next != "" && n.next !in m then Some(DanglingNext(n.id, n.next))
    else if n.kind == "branch" then RouteError(n, n.routes, m)
    else None
  }

  /** The first node, in order, that fails its checks. */
  function FirstNodeError(nodes: seq<Node>, m: map<string, Node>): (r: Option<Rejection>)
    ensures r.None? <==> forall i :: 0 <= i < |nodes| ==> NodeOk(nodes[i], m)
  {
    if nodes == [] then None
    else match NodeError(nodes[0], m)
      case Some(e) => Some(e)
      case None =>
        var r := FirstNodeError(nodes[1..], m);
        assert forall i :: 1 <= i < |nodes| ==> nodes[i] == nodes[1..][i - 1];
        r
  }

  // ----- The depth-first search -----

  /** The ids the search follows from a node: its `next`, then a branch's routes. */
  function Successors(n: Node): seq<string> {
    (if n.next != "" then [n.next] else []) + (if n.kind == "branch" then n.routes else [])
  }

  /** How many more levels the search may descend from `depth`. */
  function Budget(depth: nat): nat {
    if depth <= MaxDepth + 1 then MaxDepth + 1 - depth else 0
  }

  /**
   * `dfs(nodeId, depth)` from the sets `visited` and `recursionStack`: the
   * rejection it throws, or the visited set it leaves behind (the stack is
   * back as it was).
   */
  function Dfs(m: map<string, Node>, id: string, depth: nat, visited: set<string>, stack: set<string>): Result<set<string>>
    decreases Budget(depth), 0, 0
  {
    if depth > MaxDepth then Err(Message(DepthExceeded(id)))
    else if id in stack then Err(Message(LoopDetected(id)))
    else if id in visited then Ok(visited)
    else if id !in m then Err(Message(UndefinedNode))
    else DfsAll(m, Successors(m[id]), depth + 1, visited + {id}, stack + {id})
  }

  /** The search from each id in turn, each starting from the visited set the previous one left. */
  function DfsAll(m: map<string, Node>, ids: seq<string>, depth: nat, visited: set<string>, stack: set<string>): Result<set<string>>
    decreases Budget(depth), 1, |ids|
  {
    if ids == [] then Ok(visited)
    else match Dfs(m, ids[0], depth, visited, stack)
      case Err(e) => Err(e)
      case Ok(v) => DfsAll(m, ids[1..], depth, v, stack)
  }

  /** The depth check comes first: a call beyond depth 20 fails even for a node already visited. */
  lemma DepthFirst(m: map<string, Node>, id: string, depth: nat, visited: set<string>, stack: set<string>)
    requires depth > MaxDepth
    ensures Dfs(m, id, depth, visited, stack) == Err(Message(DepthExceeded(id)))
  {
  }

  // ----- The whole validation -----

  /** `validateWorkflow(json)`: `true`, or the message of the first check that fails. */
  function Validate(w: Workflow): Result<bool> {
    match w.nodes
    case None => Err(Message(NodesNotArray))
    case Some(nodes) =>
      if nodes == [] then Err(Message(NoNodes))
      else if |nodes| > MaxNodes then Err(Message(TooManyNodes))
      else match IdError(nodes)
        case Some(e) => Err(Message(e))
        case None =>
          var m := NodeMap(nodes);
          match StartNode(w, nodes)
          case Err(e) => Err(e)
          case Ok(start) =>
            if start !in m then Err(Message(StartNotFound(start)))
            else match FirstNodeError(nodes, m)
              case Some(e) => Err(Message(e))
              case None =>
                match Dfs(m, start, 0, {}, {})
                case Err(e) => Err(e)
                case Ok(_) => Ok(true)
  }

  /**
   * An accepted workflow has between 1 and 50 nodes with present, distinct
   * ids; every type is whitelisted; every `next` and every route of a
   * branch names a node; and the start node is `start_node` when given,
   * otherwise the first validation node, and is one of the nodes.
   */
  lemma AcceptedShape(w: Workflow)
    requires Validate(w).Ok?
    ensures Validate(w) == Ok(true)
    ensures w.nodes.Some? && 1 <= |w.nodes.value| <= MaxNodes
    ensures UniqueIds(w.nodes.value)
    ensures forall i :: 0 <= i < |w.nodes.value| ==> NodeOk(w.nodes.value[i], NodeMap(w.nodes.value))
    ensures StartNode(w, w.nodes.value).Ok? && StartNode(w, w.nodes.value).value in NodeMap(w.nodes.value)
  {
    IdErrorNone(w.nodes.value);
  }

  /** `Object.values(node.routes)` and `next` name nodes of the workflow: the map's values are its nodes. */
  lemma AcceptedEdgesStayInside(w: Workflow, i: nat, y: string)
    requires Validate(w).Ok? && w.nodes.Some? && i < |w.nodes.value|
    requires y in Successors(w.nodes.value[i])
    ensures y in NodeMap(w.nodes.value)
  {
    AcceptedShape(w);
    assert NodeOk(w.nodes.value[i], NodeMap(w.nodes.value));
  }

  // ----- Soundness of the cycle check -----

  /** `y` is followed from `x` by the search. */
  predicate Edge(m: map<string, Node>, x: string, y: string) {
    x in m && y in Successors(m[x])
  }

  /** A walk along `next` and route edges. */
  predicate Path(m: map<string, Node>, p: seq<string>) {
    |p| >= 1 && forall k :: 0 <= k < |p| - 1 ==> Edge(m, p[k], p[k + 1])
  }

  predicate Distinct(s: seq<string>) {
    forall i, j :: 0 <= i < j < |s| ==> s[i] != s[j]
  }

  /** In the order in which the search finishes nodes, every successor of a node finished before it. */
  predicate Closed(m: map<string, Node>, order: seq<string>) {
    forall i :: 0 <= i < |order| ==> order[i] in m && forall y :: y in Successors(m[order[i]]) ==> y in order[..i]
  }

  /**
   * What holds between calls: the visited nodes are the ones on the stack
   * and the finished ones, which are distinct, off the stack and closed.
   */
  ghost predicate SearchInv(m: map<string, Node>, visited: set<string>, stack: set<string>, order: seq<string>) {
    (forall x :: x in visited <==> x in stack || x in order) &&
    (forall i :: 0 <= i < |order| ==> order[i] !in stack) &&
    Distinct(order) && Closed(m, order)
  }

  /** A search that succeeds finishes its node, keeping the invariant; the finish order only grows. */
  lemma {:induction false} DfsFinishes(m: map<string, Node>, id: string, depth: nat, visited: set<string>,
                                       stack: set<string>, order: seq<string>) returns (order': seq<string>)
    requires SearchInv(m, visited, stack, order)
    requires Dfs(m, id, depth, visited, stack).Ok?
    ensures SearchInv(m, Dfs(m, id, depth, visited, stack).value, stack, order')
    ensures order <= order' && id in order'
    decreases Budget(depth), 0, 0
  {
    if id in visited {
      order' := order;
    } else {
      var kids := Successors(m[id]);
      var v1, s1 := visited + {id}, stack + {id};
      var order1 := DfsAllFinish(m, kids, depth + 1, v1, s1, order);
      order' := order1 + [id];
      assert id !in order1;
      forall i | 0 <= i < |order'| ensures order'[i] in m && forall y :: y in Successors(m[order'[i]]) ==> y in order'[..i] {
        if i < |order1| {
          assert order'[..i] == order1[..i];
        } else {
          assert order'[..i] == order1;
        }
      }
    }
  }

  /** The same for the search from each of several ids: they all end up finished. */
  lemma {:induction false} DfsAllFinish(m: map<string, Node>, ids: seq<string>, depth: nat, visited: set<string>,
                                        stack: set<string>, order: seq<string>) returns (order': seq<string>)
    requires SearchInv(m, visited, stack, order)
    requires DfsAll(m, ids, depth, visited, stack).Ok?
    ensures SearchInv(m, DfsAll(m, ids, depth, visited, stack).value, stack, order')
    ensures order <= order' && forall y :: y in ids ==> y in order'
    decreases Budget(depth), 1, |ids|
  {
    if ids == [] {
      order' := order;
    } else {
      var v := Dfs(m, ids[0], depth, visited, stack).value;
      var order1 := DfsFinishes(m, ids[0], depth, visited, stack, order);
      order' := DfsAllFinish(m, ids[1..], depth, v, stack, order1);
      forall y | y in ids ensures y in order' {
        if y != ids[0] {
          assert y in ids[1..];
        } else {
          assert order1 <= order';
        }
      }
    }
  }

  /** Along a path that starts at a finished node, positions in the finish order strictly decrease. */
  lemma Descends(m: map<string, Node>, order: seq<string>, p: seq<string>)
    requires Distinct(order) && Closed(m, order) && Path(m, p) && p[0] in order
    ensures Distinct(p)
  {
    var idx: seq<nat> := [];
    var i0 :| 0 <= i0 < |order| && order[i0] == p[0];
    idx := [i0];
    while |idx| < |p|
      invariant 1 <= |idx| <= |p|
      invariant forall k :: 0 <= k < |idx| ==> idx[k] < |order| && order[idx[k]] == p[k]
      invariant forall a, b :: 0 <= a < b < |idx| ==> idx[b] < idx[a]
    {
      var k := |idx| - 1;
      assert Edge(m, p[k], p[k + 1]);
      assert p[k + 1] in order[..idx[k]];
      var j :| 0 <= j < idx[k] && order[..idx[k]][j] == p[k + 1];
      idx := idx + [j];
    }
    forall a, b | 0 <= a < b < |p| ensures p[a] != p[b] {
      assert idx[b] < idx[a];
    }
  }

  /**
   * An accepted workflow has no cycle reachable from its start node: no walk
   * from the start node along `next` and route edges visits a node twice.
   * Cycles among nodes the start does not reach are not looked for.
   */
  lemma AcceptedHasNoReachableCycle(w: Workflow, p: seq<string>)
    requires Validate(w).Ok?
    requires Path(NodeMap(w.nodes.value), p) && p[0] == StartNode(w, w.nodes.value).value
    ensures Distinct(p)
  {
    var nodes := w.nodes.value;
    var m := NodeMap(nodes);
    AcceptedShape(w);
    var start := StartNode(w, nodes).value;
    assert SearchInv(m, {}, {}, []);
    var order := DfsFinishes(m, start, 0, {}, {}, []);
    Descends(m, order, p);
  }

  // ----- The search as the source runs it -----

  /** The two sets the recursive `dfs` adds to and removes from, over a fixed node map. */
  class Search {
    const nodeMap: map<string, Node>
    var visited: set<string>
    var recursionStack: set<string>

    constructor (m: map<string, Node>)
      ensures nodeMap == m && visited == {} && recursionStack == {}
    {
      nodeMap := m;
      visited := {};
      recursionStack := {};
    }

    /** `dfs(nodeId, depth)`: on success the visited set is the one `Dfs` computes and the stack is restored. */
    method Visit(nodeId: string, depth: nat) returns (r: Result<bool>)
      modifies this
      ensures Dfs(nodeMap, nodeId, depth, old(visited), old(recursionStack)) ==
              (if r.Ok? then Ok(visited) else Err(r.message))
      ensures r.Ok? ==> r.value && recursionStack == old(recursionStack)
      decreases Budget(depth)
    {
      if depth > MaxDepth {
        return Err(Message(DepthExceeded(nodeId)));
      }
      if nodeId in recursionStack {
        return Err(Message(LoopDetected(nodeId)));
      }
      if nodeId in visited {
        return Ok(true);
      }
      visited := visited + {nodeId};
      recursionStack := recursionStack + {nodeId};
      if nodeId !in nodeMap {
        return Err(Message(UndefinedNode));
      }
      var kids := Successors(nodeMap[nodeId]);
      ghost var v1, s1 := visited, recursionStack;
      var i := 0;
      while i < |kids|
        invariant 0 <= i <= |kids|
        invariant recursionStack == s1
        invariant DfsAll(nodeMap, kids, depth + 1, v1, s1) == DfsAll(nodeMap, kids[i..], depth + 1, visited, s1)
      {
        assert kids[i..][1..] == kids[i + 1..];
        var sub := Visit(kids[i], depth + 1);
        if sub.Err? {
          return sub;
        }
        i := i + 1;
      }
      recursionStack := recursionStack - {nodeId};
      return Ok(true);
    }
  }

  /** The `forEach` that fills `nodeMap`, throwing at a missing or repeated id. */
  method BuildNodeMap(nodes: seq<Node>) returns (r: Result<map<string, Node>>)
    ensures IdError(nodes).None? ==> r == Ok(NodeMap(nodes))
    ensures IdError(nodes).Some? ==> r == Err(Message(IdError(nodes).value))
  {
    var nodeMap: map<string, Node> := map[];
    var i := 0;
    while i < |nodes|
      invariant 0 <= i <= |nodes|
      invariant IdError(nodes[..i]).None? && nodeMap == NodeMap(nodes[..i])
    {
      var n := nodes[i];
      assert nodes[..i + 1][..i] == nodes[..i];
      if n.id == "" {
        IdErrorExtends(nodes, i + 1);
        return Err(Message(MissingId));
      }
      if n.id in nodeMap {
        IdErrorExtends(nodes, i + 1);
        return Err(Message(DuplicateId(n.id)));
      }
      nodeMap := nodeMap[n.id := n];
      i := i + 1;
    }
    assert nodes[..|nodes|] == nodes;
    return Ok(nodeMap);
  }

  /** Once a prefix of the nodes fails its id check, the whole list fails it the same way. */
  lemma {:induction false} IdErrorExtends(nodes: seq<Node>, k: nat)
    requires k <= |nodes| && IdError(nodes[..k]).Some?
    ensures IdError(nodes) == IdError(nodes[..k])
    decreases |nodes| - k
  {
    if k < |nodes| {
      assert nodes[..k + 1][..k] == nodes[..k];
      IdErrorExtends(nodes, k + 1);
    } else {
      assert nodes[..k] == nodes;
    }
  }

  /** The `forEach` over the nodes with its early throw. */
  method CheckNodes(nodes: seq<Node>, nodeMap: map<string, Node>) returns (r: Option<Rejection>)
    ensures r == FirstNodeError(nodes, nodeMap)
  {
    var i := 0;
    while i < |nodes|
      invariant 0 <= i <= |nodes|
      invariant FirstNodeError(nodes, nodeMap) == FirstNodeError(nodes[i..], nodeMap)
    {
      assert nodes[i..][1..] == nodes[i + 1..];
      var e := NodeError(nodes[i], nodeMap);
      if e.Some? {
        return e;
      }
      i := i + 1;
    }
    return None;
  }

  /** `validateWorkflow(json)`, check after check, ending in the search from the start node. */
  method ValidateWorkflow(w: Workflow) returns (r: Result<bool>)
    ensures r == Validate(w)
  {
    if w.nodes.None? {
      return Err(Message(NodesNotArray));
    }
    var nodes := w.nodes.value;
    if |nodes| == 0 {
      return Err(Message(NoNodes));
    }
    if |nodes| > MaxNodes {
      return Err(Message(TooManyNodes));
    }
    var built := BuildNodeMap(nodes);
    if built.Err? {
      return Err(built.message);
    }
    var nodeMap := built.value;
    var start := StartNode(w, nodes);
    if start.Err? {
      return Err(start.message);
    }
    var startNodeId := start.value;
    if startNodeId !in nodeMap {
      return Err(Message(StartNotFound(startNodeId)));
    }
    var bad := CheckNodes(nodes, nodeMap);
    if bad.Some? {
      return Err(Message(bad.value));
    }
    var search := new Search(nodeMap);
    r := search.Visit(startNodeId, 0);
  }
}
