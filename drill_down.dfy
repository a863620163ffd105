/**
 * The drill_down node of src/nodes/drill-down.js: when the strongest root
 * cause is significant, the node analyses its own dimension restricted to
 * that cause's value, and appends the best sub-factor to the root causes.
 */
module DrillDownNode {
  import opened Wrappers
  import opened Js
  import opened Queries
  import opened Dsl
  import opened Context
  import opened Analysis
  import opened Runtime

  /** The TypeError of `const { dimension } = node.params` without params. */
  const NoParamsError: string := "Cannot destructure property 'dimension' of 'node.params' as it is undefined."

  /** The impact a top cause needs for a drill-down. */
  const MinDrillImpact: real := 40.0

  /** `colMap[dimension] || dimension`: the column that holds a dimension's values. */
  function FilterColumn(dimension: string): string {
    if dimension == "payment_gateway" then "payment_gateway_names"
    else if dimension == "product" then "_ITEM1_name"
    else if dimension == "discount_code" then "discount_codes"
    else dimension
  }

  /** The single filter of the drill-down query: the top cause's column and value. */
  function DrillFilters(top: Finding): seq<Filter> {
    [Filter(FilterColumn(top.dimension), top.value)]
  }

  /** The effect of the node on a context value. */
  function Step(node: Node, s: Ctx, env: Env): Outcome {
    match node.params
    case None => Outcome(Err(NoParamsError), s)
    case Some(p) =>
      var causes := s.analysis.rootCauses.GetOr([]);
      if causes == [] || causes[0].impact < MinDrillImpact then Outcome(Ok(Success(node.next)), s)
      else
        var top := causes[0];
        match ResolveTimes(s.alert, env.now, env.iso)
        case Err(m) => Outcome(Err(m), s)
        case Ok(t) =>
          var findings := Analyze(env.db, s.brand.brandId, p.dimension, t, DrillFilters(top), env.textToNumber);
          if findings == [] then Outcome(Ok(Success(node.next)), s)
          else
            Outcome(Ok(Success(node.next)),
                    s.(analysis := s.analysis.(rootCauses := Some(causes + [findings[0]]),
                                               drillDownPath := Some([Segment(top.dimension, top.value)]))))
  }

  /**
   * The node only ever moves on to `node.next` and only touches `root_causes`
   * and `drill_down_path`. When it changes anything, it appends exactly one
   * finding, the best of the drill-down query, after the existing causes, and
   * the path becomes the single segment of the top cause.
   */
  lemma StepSound(node: Node, s: Ctx, env: Env)
    ensures var o := Step(node, s, env);
            o.result.Ok? ==> o.result.value == Success(node.next)
    ensures var o := Step(node, s, env);
            o.ctx.(analysis := s.analysis) == s &&
            o.ctx.analysis.confidence == s.analysis.confidence &&
            o.ctx.analysis.mixedFactors == s.analysis.mixedFactors
    ensures var o := Step(node, s, env);
            o.ctx != s ==>
              o.result.Ok? && s.analysis.rootCauses.Some? &&
              var causes := s.analysis.rootCauses.value;
              causes != [] && causes[0].impact >= MinDrillImpact &&
              ResolveTimes(s.alert, env.now, env.iso).Ok? &&
              var findings := Analyze(env.db, s.brand.brandId, node.params.value.dimension,
                                      ResolveTimes(s.alert, env.now, env.iso).value, DrillFilters(causes[0]), env.textToNumber);
              findings != [] &&
              o.ctx.analysis.rootCauses == Some(causes + [findings[0]]) &&
              o.ctx.analysis.drillDownPath == Some([Segment(causes[0].dimension, causes[0].value)])
    ensures Step(node, s, env).result.Err? ==> Step(node, s, env).ctx == s
  {
  }

  /**
   * Conversely, a top cause of at least 40 whose window resolves is drilled
   * into: the node moves on, and when the drill-down query finds something it
   * appends the best finding after the existing causes and sets the path to
   * the top cause; otherwise it changes nothing.
   */
  lemma DrillAppends(node: Node, s: Ctx, env: Env)
    requires node.params.Some? && s.analysis.rootCauses.Some? && s.analysis.rootCauses.value != []
    requires s.analysis.rootCauses.value[0].impact >= MinDrillImpact
    requires ResolveTimes(s.alert, env.now, env.iso).Ok?
    ensures var causes := s.analysis.rootCauses.value;
            var findings := Analyze(env.db, s.brand.brandId, node.params.value.dimension,
                                    ResolveTimes(s.alert, env.now, env.iso).value, DrillFilters(causes[0]), env.textToNumber);
            var o := Step(node, s, env);
            o.result == Ok(Success(node.next)) &&
            (findings == [] ==> o.ctx == s) &&
            (findings != [] ==>
               o.ctx.analysis.rootCauses == Some(causes + [findings[0]]) &&
               o.ctx.analysis.drillDownPath == Some([Segment(causes[0].dimension, causes[0].value)]))
  {
  }

  /** Without root causes, or with a top cause below 40, the node changes nothing and moves on. */
  lemma NothingToDrill(node: Node, s: Ctx, env: Env)
    requires node.params.Some?
    requires s.analysis.rootCauses.GetOr([]) == [] || s.analysis.rootCauses.value[0].impact < MinDrillImpact
    ensures Step(node, s, env) == Outcome(Ok(Success(node.next)), s)
  {
  }

  /** A top cause of impact exactly 40 is drilled into. */
  lemma DrillsAtForty(node: Node, s: Ctx, env: Env)
    requires node.params.Some? && s.analysis.rootCauses.Some? && s.analysis.rootCauses.value != []
    requires s.analysis.rootCauses.value[0].impact == 40.0
    requires ResolveTimes(s.alert, env.now, env.iso).Ok?
    requires Analyze(env.db, s.brand.brandId, node.params.value.dimension, ResolveTimes(s.alert, env.now, env.iso).value,
                     DrillFilters(s.analysis.rootCauses.value[0]), env.textToNumber) != []
    ensures |Step(node, s, env).ctx.analysis.rootCauses.value| == |s.analysis.rootCauses.value| + 1
  {
  }

  /**
   * A top cause whose dimension does not name a plain column makes the
   * drill-down query fail its whitelist, so nothing is appended.
   */
  lemma UnsafeColumnDrillsNothing(node: Node, s: Ctx, env: Env)
    requires node.params.Some? && s.analysis.rootCauses.Some? && s.analysis.rootCauses.value != []
    requires !ValidColumn(FilterColumn(s.analysis.rootCauses.value[0].dimension))
    ensures Step(node, s, env).ctx == s
  {
    var top := s.analysis.rootCauses.value[0];
    assert FirstInvalidColumn(DrillFilters(top)).Some?;
  }

  /** `execute(node, context)`, pushing onto `root_causes` and overwriting `drill_down_path` in place. */
  method Execute(node: Node, c: ExecutionContext, env: Env) returns (r: Result<Transition>)
    modifies c
    ensures r == Step(node, old(c.State()), env).result
    ensures c.State() == Step(node, old(c.State()), env).ctx
  {
    if node.params.None? {
      return Err(NoParamsError);
    }
    var dimension := node.params.value.dimension;
    var rootCauses := c.analysis.rootCauses.GetOr([]);
    if |rootCauses| == 0 {
      return Ok(Success(node.next));
    }
    var topCause := rootCauses[0];
    if topCause.impact < MinDrillImpact {
      return Ok(Success(node.next));
    }
    var filters := DrillFilters(topCause);
    var times := ResolveTimes(c.alert, env.now, env.iso);
    if times.Err? {
      return Err(times.message);
    }
    var findings := AnalyzeDimension(env.db, c.brand.brandId, dimension, times.value, filters, env.textToNumber);
    if |findings| > 0 {
      c.analysis := c.analysis.(rootCauses := Some(c.analysis.rootCauses.value + [findings[0]]));
      c.analysis := c.analysis.(drillDownPath := Some([Segment(topCause.dimension, topCause.value)]));
    }
    return Ok(Success(node.next));
  }
}
