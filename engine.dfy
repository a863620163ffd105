/**
 * The interpreter of src/core/engine.js: the light validator first, then a
 * fresh context and a walk over node ids from the first validation node,
 * calling each node's executor through the registry, for at most 50 steps.
 * The run answers with the final insight plus brand, metric and metadata,
 * with `{ status, reason }` when a node suppresses or defers it, or with an
 * error record.
 */
module Engine {
  import opened Wrappers
  import opened Strings
  import opened Dsl
  import opened Context
  import opened Runtime
  import Registry
  import Validator
  import ValidationNode
  import MetricCompareNode
  import BranchNode
  import BreakdownNode
  import DrillDownNode
  import CompositeNode
  import InsightNode
  import SuppressionNode
  import ConfidenceNode
  import DeferNode

  const MaxSteps: nat := 50

  /** What `executeWorkflow` answers. */
  datatype Response =
    /** `{ status: 'error', type: 'workflow_validation_error', message }`. */
    | ValidationFailed(message: string)
    /** `{ status, reason }` of a suppressed or deferred run. */
    | Halted(status: string, reason: string)
    /** `{ ...final_insight, brand_id, metric, metadata }`. */
    | Delivered(insight: Insight, brandId: int, metric: string, metadata: Metadata)
    /** `{ status: 'error', type: 'execution_error', message }`. */
    | ExecutionError(message: string)
    /** `{ status: 'error', type: 'execution_exception', message }`: an error caught by the `try`. */
    | ExecutionException(message: string)
    /** The TypeError thrown before the `try` when there is no validation node: the promise rejects. */
    | Escaped(message: string)

  /** The errors raised inside the `try`, the executors' own included; `Message` gives their text. */
  datatype Fault =
    | NodeNotFound(id: string)
    | NoExecutor(kind: string)
    | ExecutorFailed(message: string)
    | UnknownStatus(id: string, status: Transition)
    | ExceededMaxSteps

  function Message(f: Fault): string {
    match f
    case NodeNotFound(id) => "Node " + id + " not found in workflow"
    case NoExecutor(kind) => "No executor for node type " + (if kind == "" then "undefined" else kind)
    case ExecutorFailed(message) => message
    case UnknownStatus(id, status) => "Unknown result status from node " + id + ": " + StatusText(status)
    case ExceededMaxSteps => "Workflow execution exceeded max steps"
  }

  const NoInsight: string := "Workflow finished without generating insight"
  const NoEntryNode: string := "Cannot read properties of undefined (reading 'id')"

  /** The `status` string of a transition. */
  function StatusText(t: Transition): string {
    match t
    case Success(_) => "success"
    case Done => "done"
    case Suppressed(_) => "suppressed"
    case Deferred(_) => "deferred"
    case Terminate(_) => "terminate"
  }

  // ----- Dispatch -----

  /** `executor.execute(node, context)` for the executor the registry returned. */
  function StepOf(kind: Registry.Kind, node: Node, s: Ctx, env: Env): Outcome {
    match kind
    case Validation => Outcome(ValidationNode.Execute(node, s.alert, env.now, env.iso), s)
    case MetricCompare => MetricCompareNode.Step(node, s, env)
    case Branch => BranchNode.Step(node, s, env)
    case Breakdown => BreakdownNode.Step(node, s, env)
    case DrillDown => DrillDownNode.Step(node, s, env)
    case Composite => Outcome(CompositeNode.Execute(node), s)
    case Insight => InsightNode.Step(node, s)
    case Suppression => SuppressionNode.Step(node, s)
    case Confidence => ConfidenceNode.Step(node, s, env)
    case Defer => DeferNode.Step(node, s)
  }

  /** The same call on the shared context object, which the executor updates in place. */
  method ExecuteNode(kind: Registry.Kind, node: Node, c: ExecutionContext, env: Env) returns (r: Result<Transition>)
    modifies c
    ensures r == StepOf(kind, node, old(c.State()), env).result
    ensures c.State() == StepOf(kind, node, old(c.State()), env).ctx
  {
    match kind {
      case Validation => r := ValidationNode.Execute(node, c.alert, env.now, env.iso);
      case MetricCompare => r := MetricCompareNode.Execute(node, c, env);
      case Branch => r := BranchNode.Execute(node, c, env);
      case Breakdown => r := BreakdownNode.Execute(node, c, env);
      case DrillDown => r := DrillDownNode.Execute(node, c, env);
      case Composite => r := CompositeNode.Execute(node);
      case Insight => r := InsightNode.Execute(node, c);
      case Suppression => r := SuppressionNode.Execute(node, c);
      case Confidence => r := ConfidenceNode.Execute(node, c, env);
      case Defer => r := DeferNode.Execute(node, c);
    }
  }

  /** `getNodeExecutor(node.type)` and then its `execute(node, context)`; nothing when the type has no executor. */
  function Dispatch(node: Node, s: Ctx, env: Env): Option<Outcome> {
    match Registry.GetNodeExecutor(node.kind)
    case None => None
    case Some(kind) => Some(StepOf(kind, node, s, env))
  }

  /** The registry and its executors as one value, the way the loop uses them. */
  type Executors = (Node, Ctx) -> Option<Outcome>

  function ExecutorsOf(env: Env): Executors {
    (node, s) => Dispatch(node, s, env)
  }

  /** `execute` is the registry's dispatch in `env`. */
  ghost predicate Dispatches(execute: Executors, env: Env) {
    forall node, s {:trigger Dispatch(node, s, env)} :: execute(node, s) == Dispatch(node, s, env)
  }

  // ----- The step loop -----

  /**
   * How the loop ends: it leaves (through `done`, a falsy id or the
   * budget), it returns a node's `suppressed` or `deferred` transition, or
   * something inside it throws.
   */
  datatype LoopEnd = Left(ctx: Ctx, steps: nat) | Halt(kind: HaltKind, reason: string) | Threw(fault: Fault)

  /** The two statuses that end the run early with `{ status, reason }`. */
  datatype HaltKind = SuppressedRun | DeferredRun

  function HaltText(k: HaltKind): string {
    match k
    case SuppressedRun => "suppressed"
    case DeferredRun => "deferred"
  }

  /** The loop's end, and the ids of the nodes whose executor it called, in order. */
  datatype Trip = Trip(end: LoopEnd, calls: seq<string>)

  /**
   * `while (currentNodeId && steps < MAX_STEPS) { ... }` from `id` with
   * `steps` already taken. The loop calls at most one executor per remaining
   * step; it leaves with a step count of at most 50 and at least the number
   * of calls it made; only a suppressing or deferring node halts it; the
   * budget is checked after the loop, not inside it; and the only status it
   * does not know is `terminate`.
   */
  function Loop(nodes: seq<Node>, id: string, steps: nat, s: Ctx, execute: Executors): (t: Trip)
    requires steps <= MaxSteps
    ensures |t.calls| <= MaxSteps - steps
    ensures t.end.Left? ==> steps + |t.calls| - 1 <= t.end.steps <= MaxSteps && t.end.steps <= steps + |t.calls|
    ensures t.end.Threw? ==> !t.end.fault.ExceededMaxSteps?
    ensures t.end.Threw? && t.end.fault.UnknownStatus? ==> t.end.fault.status.Terminate?
    decreases MaxSteps - steps
  {
    if id == "" || steps >= MaxSteps then Trip(Left(s, steps), [])
    else match FindById(nodes, id)
      case None => Trip(Threw(NodeNotFound(id)), [])
      case Some(node) =>
        match execute(node, s)
        case None => Trip(Threw(NoExecutor(node.kind)), [])
        case Some(o) =>
          match o.result
          case Err(m) => Trip(Threw(ExecutorFailed(m)), [id])
          case Ok(Done) => Trip(Left(o.ctx, steps), [id])
          case Ok(Success(next)) =>
            var t := Loop(nodes, next, steps + 1, o.ctx, execute);
            Trip(t.end, [id] + t.calls)
          case Ok(Suppressed(reason)) => Trip(Halt(SuppressedRun, reason), [id])
          case Ok(Deferred(reason)) => Trip(Halt(DeferredRun, reason), [id])
          case Ok(Terminate(_)) => Trip(Threw(UnknownStatus(node.id, o.result.value)), [id])
  }

  /** The answer: `{ status, reason }` for a halt, the caught error, or the budget check and then the insight. */
  function Finish(e: LoopEnd): Response {
    match e
    case Halt(k, reason) => Halted(HaltText(k), reason)
    case Threw(f) => ExecutionException(Message(f))
    case Left(s, steps) =>
      if steps >= MaxSteps then ExecutionException(Message(ExceededMaxSteps))
      else match s.finalInsight
        case Some(i) => Delivered(i, s.brand.brandId, s.alert.metric, s.metadata)
        case None => ExecutionError(NoInsight)
  }

  /** `executeWorkflow({ alert, brand, workflow })` with the executors given as a value. */
  function RunWith(w: Workflow, alert: Alert, brand: Brand, env: Env, execute: Executors): Response {
    var errors := Validator.Errors(w, env.json);
    if errors != [] then ValidationFailed(Join(Validator.Messages(errors), "; "))
    else match FirstOfKind(w.nodes.value, "validation")
      case None => Escaped(NoEntryNode)
      case Some(entry) =>
        var s := CreateExecutionContext(alert, brand, w, env.executedAt, env.traceId);
        Finish(Loop(w.nodes.value, entry.id, 0, s, execute).end)
  }

  /** The executor calls of a run that gets past validation. */
  function CallsWith(w: Workflow, alert: Alert, brand: Brand, env: Env, execute: Executors): seq<string> {
    if Validator.Errors(w, env.json) != [] then []
    else match FirstOfKind(w.nodes.value, "validation")
      case None => []
      case Some(entry) =>
        Loop(w.nodes.value, entry.id, 0, CreateExecutionContext(alert, brand, w, env.executedAt, env.traceId), execute).calls
  }

  /** `executeWorkflow({ alert, brand, workflow })` with the registry's executors. */
  function Run(w: Workflow, alert: Alert, brand: Brand, env: Env): Response {
    RunWith(w, alert, brand, env, ExecutorsOf(env))
  }

  /** The executor calls of that run. */
  function Calls(w: Workflow, alert: Alert, brand: Brand, env: Env): seq<string> {
    CallsWith(w, alert, brand, env, ExecutorsOf(env))
  }

  // ----- Properties of the loop and the run -----

  /** The registry's dispatch is what `Run` hands to the loop. */
  lemma ExecutorsDispatch(env: Env)
    ensures Dispatches(ExecutorsOf(env), env)
  {
  }

  /** No executor writes the alert or the brand of the context. */
  lemma StepKeepsAlertAndBrand(kind: Registry.Kind, node: Node, s: Ctx, env: Env)
    ensures StepOf(kind, node, s, env).ctx.alert == s.alert
    ensures StepOf(kind, node, s, env).ctx.brand == s.brand
  {
  }

  /** Executors that keep the alert and the brand leave the loop with the alert and the brand it started with. */
  lemma {:induction false} LoopKeepsAlertAndBrand(nodes: seq<Node>, id: string, steps: nat, s: Ctx, execute: Executors)
    requires steps <= MaxSteps
    requires forall node, c :: execute(node, c).Some? ==>
               execute(node, c).value.ctx.alert == c.alert && execute(node, c).value.ctx.brand == c.brand
    ensures var e := Loop(nodes, id, steps, s, execute).end;
            e.Left? ==> e.ctx.alert == s.alert && e.ctx.brand == s.brand
    decreases MaxSteps - steps
  {
    if id != "" && steps < MaxSteps && FindById(nodes, id).Some? {
      var node := FindById(nodes, id).value;
      if execute(node, s).Some? {
        var o := execute(node, s).value;
        if o.result.Ok? && o.result.value.Success? {
          LoopKeepsAlertAndBrand(nodes, o.result.value.next, steps + 1, o.ctx, execute);
          assert Loop(nodes, id, steps, s, execute).end == Loop(nodes, o.result.value.next, steps + 1, o.ctx, execute).end;
        }
      }
    }
  }

  /**
   * A node whose executor, for the run's alert, always answers `success`
   * with its own id as `next` is called once per remaining step, and the
   * loop leaves with the budget used up.
   */
  lemma {:induction false} SelfRouteExhausts(nodes: seq<Node>, id: string, steps: nat, s: Ctx, execute: Executors, node: Node)
    requires steps <= MaxSteps && id != ""
    requires FindById(nodes, id) == Some(node)
    requires forall c: Ctx :: c.alert == s.alert ==>
               execute(node, c).Some? && execute(node, c).value.result == Ok(Success(id)) &&
               execute(node, c).value.ctx.alert == s.alert
    ensures var t := Loop(nodes, id, steps, s, execute);
            t.end.Left? && t.end.steps == MaxSteps && |t.calls| == MaxSteps - steps &&
            forall i :: 0 <= i < |t.calls| ==> t.calls[i] == id
    decreases MaxSteps - steps
  {
    if steps < MaxSteps {
      var o := execute(node, s).value;
      var rest := Loop(nodes, id, steps + 1, o.ctx, execute);
      SelfRouteExhausts(nodes, id, steps + 1, o.ctx, execute, node);
      assert Loop(nodes, id, steps, s, execute) == Trip(rest.end, [id] + rest.calls);
    }
  }

  /** A type that is none of the registry's keys ends the run with the no-executor error, before any executor runs. */
  lemma UnknownTypeThrows(nodes: seq<Node>, id: string, steps: nat, s: Ctx, env: Env, node: Node)
    requires steps < MaxSteps && id != "" && FindById(nodes, id) == Some(node)
    requires forall i :: 0 <= i < |Registry.Kinds| ==> Registry.Tag(Registry.Kinds[i]) != node.kind
    ensures Loop(nodes, id, steps, s, ExecutorsOf(env)) == Trip(Threw(NoExecutor(node.kind)), [])
  {
    Registry.UnknownTag(node.kind);
  }

  /**
   * A branch node where no rule holds and no default is set answers
   * `terminate`, which the loop does not know: the run ends in an
   * `execution_exception` naming the node and the status.
   */
  lemma UnmatchedBranchThrows(nodes: seq<Node>, id: string, steps: nat, s: Ctx, env: Env, node: Node)
    requires steps < MaxSteps && id != "" && FindById(nodes, id) == Some(node) && node.kind == "branch"
    requires BranchNode.DefaultOf(node) == NoDefault
    requires forall j :: 0 <= j < |BranchNode.RuleList(node)| ==>
               !BranchNode.Holds(BranchNode.RuleList(node)[j].cond, BranchNode.ScopeOf(s), env.textToNumber)
    ensures Loop(nodes, id, steps, s, ExecutorsOf(env)).end == Threw(UnknownStatus(node.id, Terminate(BranchNode.NoMatchReason)))
  {
    Registry.Lookup("branch", Registry.Branch);
    BranchNode.DecideNoMatch(node, BranchNode.HoldsIn(BranchNode.ScopeOf(s), env.textToNumber));
  }

  /**
   * Whatever the executors do, the validator decides whether anything runs:
   * a non-empty error list is answered with the joined messages and no
   * executor call; an empty one never is. Past validation, the run rejects
   * (escapes) exactly when no node has type `validation`; a halt carries the
   * status `suppressed` or `deferred`; and at most 50 executors are called.
   */
  lemma RunOutcomes(w: Workflow, alert: Alert, brand: Brand, env: Env, execute: Executors)
    ensures var r := RunWith(w, alert, brand, env, execute);
            var errors := Validator.Errors(w, env.json);
            (r.ValidationFailed? <==> errors != []) &&
            (errors != [] ==> r == ValidationFailed(Join(Validator.Messages(errors), "; ")) &&
                              CallsWith(w, alert, brand, env, execute) == []) &&
            (r.Escaped? <==> errors == [] && FirstOfKind(w.nodes.value, "validation").None?) &&
            (r.Halted? ==> r.status in {"suppressed", "deferred"}) &&
            |CallsWith(w, alert, brand, env, execute)| <= MaxSteps
  {
  }

  /** The `start_node` field plays no part: the run starts at the first validation node whatever it says. */
  lemma IgnoresStartNode(w: Workflow, start: string, alert: Alert, brand: Brand, env: Env, execute: Executors)
    ensures RunWith(w.(startNode := start), alert, brand, env, execute) == RunWith(w, alert, brand, env, execute)
    ensures CallsWith(w.(startNode := start), alert, brand, env, execute) == CallsWith(w, alert, brand, env, execute)
  {
    var w' := w.(startNode := start);
    assert Validator.Errors(w', env.json) == Validator.Errors(w, env.json);
    assert CreateExecutionContext(alert, brand, w', env.executedAt, env.traceId)
        == CreateExecutionContext(alert, brand, w, env.executedAt, env.traceId);
  }

  /** No executor writes the alert or the brand of the context it is given. */
  ghost predicate KeepsIdentity(execute: Executors) {
    forall node, c :: execute(node, c).Some? ==>
      execute(node, c).value.ctx.alert == c.alert && execute(node, c).value.ctx.brand == c.brand
  }

  /** The registry's executors keep the alert and the brand. */
  lemma ExecutorsKeepIdentity(env: Env)
    ensures KeepsIdentity(ExecutorsOf(env))
  {
    forall node, c | ExecutorsOf(env)(node, c).Some?
      ensures ExecutorsOf(env)(node, c).value.ctx.alert == c.alert && ExecutorsOf(env)(node, c).value.ctx.brand == c.brand
    {
      StepKeepsAlertAndBrand(Registry.GetNodeExecutor(node.kind).value, node, c, env);
    }
  }

  /** With executors that keep them, a delivered insight carries the brand id and the metric of the run's own brand and alert. */
  lemma DeliveredCarriesIdentity(w: Workflow, alert: Alert, brand: Brand, env: Env, execute: Executors)
    requires KeepsIdentity(execute)
    ensures var r := RunWith(w, alert, brand, env, execute);
            r.Delivered? ==> r.brandId == brand.brandId && r.metric == alert.metric
  {
    if Validator.Errors(w, env.json) == [] && FirstOfKind(w.nodes.value, "validation").Some? {
      var entry := FirstOfKind(w.nodes.value, "validation").value;
      LoopKeepsAlertAndBrand(w.nodes.value, entry.id, 0, CreateExecutionContext(alert, brand, w, env.executedAt, env.traceId), execute);
    }
  }

  /** So a delivered insight of `executeWorkflow` names the run's own brand and metric. */
  lemma RunDeliversOwnIdentity(w: Workflow, alert: Alert, brand: Brand, env: Env)
    ensures var r := Run(w, alert, brand, env);
            r.Delivered? ==> r.brandId == brand.brandId && r.metric == alert.metric
  {
    ExecutorsKeepIdentity(env);
    DeliveredCarriesIdentity(w, alert, brand, env, ExecutorsOf(env));
  }

  /**
   * A valid workflow whose only node routes to itself through an executor
   * that, for the run's alert, always answers `success` with that id: the
   * node runs fifty times and the run ends with the max-steps exception.
   */
  lemma SelfRouteExceeds(w: Workflow, node: Node, alert: Alert, brand: Brand, env: Env, execute: Executors)
    requires Validator.Errors(w, env.json) == [] && w.nodes == Some([node])
    requires node.kind == "validation" && node.id != ""
    requires forall c: Ctx :: c.alert == alert ==>
               execute(node, c).Some? && execute(node, c).value.result == Ok(Success(node.id)) &&
               execute(node, c).value.ctx.alert == alert
    ensures RunWith(w, alert, brand, env, execute) == ExecutionException(Message(ExceededMaxSteps))
    ensures |CallsWith(w, alert, brand, env, execute)| == MaxSteps
  {
    assert FindById([node], node.id) == Some(node);
    var s := CreateExecutionContext(alert, brand, w, env.executedAt, env.traceId);
    SelfRouteExhausts([node], node.id, 0, s, execute, node);
  }

  /**
   * A valid workflow whose only node is a validation node that routes to
   * itself, run on an alert without a current window and a node without a
   * minimum drop: the node runs fifty times and the run ends with the
   * max-steps exception.
   */
  lemma SelfLoopExceeds(w: Workflow, node: Node, alert: Alert, brand: Brand, env: Env)
    requires w.id != "" && w.version != 0 && w.nodes == Some([node])
    requires node.kind == "validation" && node.id != "" && node.next == node.id
    requires alert.currentWindow == "" && ValidationNode.MinDropPct(node).None?
    ensures Run(w, alert, brand, env) == ExecutionException(Message(ExceededMaxSteps))
    ensures |Calls(w, alert, brand, env)| == MaxSteps
  {
    Validator.EmptyIff(w, env.json);
    Registry.Lookup("validation", Registry.Validation);
    forall c: Ctx | c.alert == alert
      ensures ExecutorsOf(env)(node, c) == Some(Outcome(ValidationNode.Execute(node, c.alert, env.now, env.iso), c))
      ensures ExecutorsOf(env)(node, c).value.result == Ok(Success(node.id))
    {
      ValidationNode.NoWindowNeverDefers(node, c.alert, env.now, env.iso);
    }
    SelfRouteExceeds(w, node, alert, brand, env, ExecutorsOf(env));
  }

  /** One pass of the loop body from node `id`: it stops the run, leaves the loop on `done`, or goes on to `next`. */
  method Advance(nodes: seq<Node>, id: string, steps: nat, context: ExecutionContext, env: Env, ghost execute: Executors)
    returns (stop: Option<LoopEnd>, done: bool, next: string)
    requires id != "" && steps < MaxSteps && Dispatches(execute, env)
    modifies context
    ensures stop.Some? ==> Loop(nodes, id, steps, old(context.State()), execute).end == stop.value
    ensures stop.None? && done ==> Loop(nodes, id, steps, old(context.State()), execute).end == Left(context.State(), steps)
    ensures stop.None? && !done ==>
              Loop(nodes, id, steps, old(context.State()), execute).end == Loop(nodes, next, steps + 1, context.State(), execute).end
  {
    done, next := false, "";
    var node := FindById(nodes, id);
    if node.None? {
      return Some(Threw(NodeNotFound(id))), done, next;
    }
    assert execute(node.value, context.State()) == Dispatch(node.value, context.State(), env);
    var executor := Registry.GetNodeExecutor(node.value.kind);
    if executor.None? {
      return Some(Threw(NoExecutor(node.value.kind))), done, next;
    }
    assert execute(node.value, context.State()) == Some(StepOf(executor.value, node.value, context.State(), env));
    var result := ExecuteNode(executor.value, node.value, context, env);
    if result.Err? {
      return Some(Threw(ExecutorFailed(result.message))), done, next;
    }
    var transition := result.value;
    if transition.Done? {
      stop, done := None, true;
    } else if transition.Success? {
      stop, next := None, transition.next;
    } else if transition.Suppressed? {
      stop := Some(Halt(SuppressedRun, transition.reason));
    } else if transition.Deferred? {
      stop := Some(Halt(DeferredRun, transition.reason));
    } else {
      stop := Some(Threw(UnknownStatus(node.value.id, transition)));
    }
  }

  /** After the loop: the step budget, then the context's final insight. */
  method Conclude(context: ExecutionContext, steps: nat) returns (response: Response)
    ensures response == Finish(Left(context.State(), steps))
  {
    if steps >= MaxSteps {
      return ExecutionException(Message(ExceededMaxSteps));
    }
    if context.finalInsight.Some? {
      return Delivered(context.finalInsight.value, context.brand.brandId, context.alert.metric, context.metadata);
    }
    return ExecutionError(NoInsight);
  }

  /** The `try` block: the step loop from `entryId` on the shared context, then the final output. */
  method RunLoop(nodes: seq<Node>, entryId: string, context: ExecutionContext, env: Env, ghost execute: Executors)
    returns (response: Response)
    requires Dispatches(execute, env)
    modifies context
    ensures response == Finish(Loop(nodes, entryId, 0, old(context.State()), execute).end)
  {
    ghost var whole := Loop(nodes, entryId, 0, context.State(), execute).end;
    var currentNodeId := entryId;
    var steps := 0;
    while currentNodeId != "" && steps < MaxSteps
      invariant steps <= MaxSteps
      invariant whole == Loop(nodes, currentNodeId, steps, context.State(), execute).end
      decreases MaxSteps - steps
    {
      var stop, done, next := Advance(nodes, currentNodeId, steps, context, env, execute);
      if stop.Some? {
        return Finish(stop.value);
      }
      if done {
        break;
      }
      currentNodeId := next;
      steps := steps + 1;
    }
    assert whole == Left(context.State(), steps);
    response := Conclude(context, steps);
  }

  /** `executeWorkflow`: validation, the entry node, a fresh context, then the loop. */
  method ExecuteWorkflow(w: Workflow, alert: Alert, brand: Brand, env: Env) returns (response: Response)
    ensures response == Run(w, alert, brand, env)
  {
    var validationErrors := Validator.ValidateWorkflow(w, env.json);
    if |validationErrors| > 0 {
      return ValidationFailed(Join(validationErrors, "; "));
    }
    assert Validator.Errors(w, env.json) == [];
    var nodes := w.nodes.value;
    var entry := FirstOfKind(nodes, "validation");
    if entry.None? {
      return Escaped(NoEntryNode);
    }
    var context := new ExecutionContext(CreateExecutionContext(alert, brand, w, env.executedAt, env.traceId));
    response := RunLoop(nodes, entry.value.id, context, env, ExecutorsOf(env));
  }
}
