/**
 * The recursive_dimension_breakdown node of
 * src/nodes/recursive-dimension-breakdown.js: every listed dimension is
 * analysed without filters, the findings are merged and sorted by impact,
 * the weak ones are dropped relative to the overall orders drop, and a
 * field of several causes without a dominant one is flagged as mixed.
 */
module BreakdownNode {
  import opened Wrappers
  import opened Js
  import opened Dsl
  import opened Context
  import opened Analysis
  import opened Runtime

  /** The TypeError of `for (const dim of dimensions)` when no dimensions are given. */
  const NotIterable: string := "dimensions is not iterable"

  /** `node.dimensions || params.dimensions`; an array, even an empty one, is truthy. */
  function Dimensions(node: Node): Option<seq<string>> {
    if node.flat.dimensions.Some? then node.flat.dimensions else ParamsOrEmpty(node).dimensions
  }

  /** The findings of the dimensions, concatenated in declaration order. */
  function Collect(db: Queries.Db, brandId: int, dims: seq<string>, t: TimeContext,
                   textToNumber: string -> Number): seq<Finding>
  {
    if dims == [] then []
    else Collect(db, brandId, dims[..|dims| - 1], t, textToNumber) + Analyze(db, brandId, dims[|dims| - 1], t, [], textToNumber)
  }

  /**
   * `Math.abs(context.derived?.orders_delta_pct || 100)`: a missing or falsy
   * value (0, NaN) gives 100; otherwise the magnitude of `Number(value)`.
   */
  function TotalDrop(derived: map<string, Value>, textToNumber: string -> Number): (d: Number)
    ensures d.Finite? ==> d.x >= 0.0
  {
    var v := if "orders_delta_pct" in derived then derived["orders_delta_pct"] else Undef;
    if !Truthy(v) then Finite(100.0)
    else match ToNumber(v, textToNumber)
      case Finite(x) => Finite(if x < 0.0 then -x else x)
      case NaN => NaN
  }

  /** Without an orders delta, or with a zero one, the divisor is 100. */
  lemma DefaultDivisor(derived: map<string, Value>, textToNumber: string -> Number)
    requires "orders_delta_pct" !in derived || derived["orders_delta_pct"] in {Undef, Null, Num(0.0)}
    ensures TotalDrop(derived, textToNumber) == Finite(100.0)
  {
  }

  /**
   * `(impact / total) * 100 > 20 || impact > 40`. A NaN divisor makes the
   * ratio NaN, which is not above 20; a zero divisor makes it +Infinity for
   * a positive impact.
   */
  predicate Valid(f: Finding, total: Number) {
    match total
    case NaN => f.impact > 40.0
    case Finite(x) =>
      (if x == 0.0 then f.impact > 0.0 else f.impact / x * 100.0 > 20.0) || f.impact > 40.0
  }

  /** `allRootCauses.filter(...)`: the valid causes, in their order. */
  function ValidCauses(s: seq<Finding>, total: Number): (r: seq<Finding>)
    ensures forall f :: f in r <==> f in s && Valid(f, total)
    ensures |r| <= |s|
  {
    if s == [] then []
    else (if Valid(s[0], total) then [s[0]] else []) + ValidCauses(s[1..], total)
  }

  /** Filtering keeps the order, so sorted causes stay sorted. */
  lemma {:induction false} ValidCausesSorted(s: seq<Finding>, total: Number)
    requires SortedByImpact(s)
    ensures SortedByImpact(ValidCauses(s, total))
  {
    if s != [] {
      var rest := ValidCauses(s[1..], total);
      assert SortedByImpact(s[1..]) by {
        forall i, j | 0 <= i < j < |s[1..]| ensures s[1..][i].impact >= s[1..][j].impact {
          assert s[1..][i] == s[i + 1] && s[1..][j] == s[j + 1];
        }
      }
      ValidCausesSorted(s[1..], total);
      if Valid(s[0], total) {
        var r := [s[0]] + rest;
        forall i, j | 0 <= i < j < |r| ensures r[i].impact >= r[j].impact {
          if i == 0 {
            assert r[j] == rest[j - 1] && rest[j - 1] in s[1..];
            var k :| 0 <= k < |s[1..]| && s[1..][k] == rest[j - 1];
            assert s[k + 1] == rest[j - 1];
          } else {
            assert r[i] == rest[i - 1] && r[j] == rest[j - 1];
          }
        }
      }
    }
  }

  /** Filtering keeps every valid cause as often as it occurs and drops every other one. */
  lemma {:induction false} ValidCausesCount(s: seq<Finding>, total: Number, f: Finding)
    ensures multiset(ValidCauses(s, total))[f] == if Valid(f, total) then multiset(s)[f] else 0
  {
    if s != [] {
      ValidCausesCount(s[1..], total, f);
      assert s == [s[0]] + s[1..];
    }
  }

  /** Filtering inputs that are permutations of each other gives permutations of each other. */
  lemma ValidCausesPermute(a: seq<Finding>, b: seq<Finding>, total: Number)
    requires multiset(a) == multiset(b)
    ensures multiset(ValidCauses(a, total)) == multiset(ValidCauses(b, total))
  {
    forall f ensures multiset(ValidCauses(a, total))[f] == multiset(ValidCauses(b, total))[f] {
      ValidCausesCount(a, total, f);
      ValidCausesCount(b, total, f);
    }
  }

  /** `top.impact_score > 60 || (validCauses.length === 1 && top.impact_score > 40)`. */
  predicate Dominant(valid: seq<Finding>)
    requires valid != []
  {
    valid[0].impact > 60.0 || (|valid| == 1 && valid[0].impact > 40.0)
  }

  /** The condition under which the node sets `mixed_factors`. */
  predicate Mixed(valid: seq<Finding>) {
    valid != [] && !Dominant(valid) && |valid| > 1
  }

  /** Mixed factors means at least two valid causes and a top impact of at most 60. */
  lemma MixedIff(valid: seq<Finding>)
    ensures Mixed(valid) <==> |valid| >= 2 && valid[0].impact <= 60.0
  {
  }

  /** The effect of the node on a context value; a failure leaves it unchanged. */
  function Step(node: Node, s: Ctx, env: Env): Outcome {
    match ResolveTimes(s.alert, env.now, env.iso)
    case Err(m) => Outcome(Err(m), s)
    case Ok(t) =>
      match Dimensions(node)
      case None => Outcome(Err(NotIterable), s)
      case Some(dims) =>
        var all := SortByImpact(Collect(env.db, s.brand.brandId, dims, t, env.textToNumber));
        var valid := ValidCauses(all, TotalDrop(s.derived, env.textToNumber));
        Outcome(Ok(Success(node.next)),
                s.(analysis := s.analysis.(rootCauses := Some(valid),
                                           mixedFactors := s.analysis.mixedFactors || Mixed(valid))))
  }

  /**
   * On success the node moves to `node.next`; `root_causes` becomes the valid
   * causes of the listed dimensions' findings, all of them and nothing else,
   * sorted by impact; `mixed_factors` is raised exactly when the causes are
   * mixed and never lowered; nothing else changes.
   */
  lemma StepSound(node: Node, s: Ctx, env: Env)
    ensures var o := Step(node, s, env);
            o.ctx.(analysis := s.analysis) == s &&
            o.ctx.analysis.confidence == s.analysis.confidence &&
            o.ctx.analysis.drillDownPath == s.analysis.drillDownPath
    ensures var o := Step(node, s, env);
            o.result.Ok? ==>
              o.result.value == Success(node.next) &&
              o.ctx.analysis.rootCauses.Some? &&
              SortedByImpact(o.ctx.analysis.rootCauses.value) &&
              (o.ctx.analysis.mixedFactors <==> s.analysis.mixedFactors || Mixed(o.ctx.analysis.rootCauses.value)) &&
              forall f :: f in o.ctx.analysis.rootCauses.value ==>
                Valid(f, TotalDrop(s.derived, env.textToNumber)) && f.impact > 5.0
    ensures Step(node, s, env).result.Err? ==> Step(node, s, env).ctx == s
    ensures ResolveTimes(s.alert, env.now, env.iso).Ok? && Dimensions(node).None? ==>
              Step(node, s, env).result == Err(NotIterable)
    ensures ResolveTimes(s.alert, env.now, env.iso).Ok? && Dimensions(node).Some? ==>
              var collected := Collect(env.db, s.brand.brandId, Dimensions(node).value,
                                       ResolveTimes(s.alert, env.now, env.iso).value, env.textToNumber);
              var causes := Step(node, s, env).ctx.analysis.rootCauses;
              causes.Some? &&
              multiset(causes.value) == multiset(ValidCauses(collected, TotalDrop(s.derived, env.textToNumber)))
  {
    match ResolveTimes(s.alert, env.now, env.iso)
    case Err(_) =>
    case Ok(t) =>
      match Dimensions(node)
      case None =>
      case Some(dims) =>
        var collected := Collect(env.db, s.brand.brandId, dims, t, env.textToNumber);
        var all := SortByImpact(collected);
        var total := TotalDrop(s.derived, env.textToNumber);
        SortByImpactCorrect(collected);
        ValidCausesSorted(all, total);
        ValidCausesPermute(all, collected, total);
        CollectSound(env.db, s.brand.brandId, dims, t, env.textToNumber);
        forall f | f in ValidCauses(all, total) ensures f.impact > 5.0 {
          assert f in multiset(all);
          assert f in collected;
        }
  }

  /** Every collected finding scores above 5. */
  lemma {:induction false} CollectSound(db: Queries.Db, brandId: int, dims: seq<string>, t: TimeContext,
                                        textToNumber: string -> Number)
    ensures forall f :: f in Collect(db, brandId, dims, t, textToNumber) ==> f.impact > 5.0
    decreases |dims|
  {
    if dims != [] {
      CollectSound(db, brandId, dims[..|dims| - 1], t, textToNumber);
      AnalyzeSound(db, brandId, dims[|dims| - 1], t, [], textToNumber);
    }
  }

  /** The dimension loop: each dimension analysed without filters, its findings appended. */
  method CollectFindings(db: Queries.Db, brandId: int, dims: seq<string>, t: TimeContext,
                         textToNumber: string -> Number) returns (all: seq<Finding>)
    ensures all == Collect(db, brandId, dims, t, textToNumber)
  {
    all := [];
    var i := 0;
    while i < |dims|
      invariant 0 <= i <= |dims|
      invariant all == Collect(db, brandId, dims[..i], t, textToNumber)
    {
      var findings := AnalyzeDimension(db, brandId, dims[i], t, [], textToNumber);
      assert dims[..i + 1][..i] == dims[..i];
      all := all + findings;
      i := i + 1;
    }
    assert dims[..|dims|] == dims;
  }

  /** `execute(node, context)`: the dimension loop, the sort, the filter and the writes in place. */
  method Execute(node: Node, c: ExecutionContext, env: Env) returns (r: Result<Transition>)
    modifies c
    ensures r == Step(node, old(c.State()), env).result
    ensures c.State() == Step(node, old(c.State()), env).ctx
  {
    var dimensions := Dimensions(node);
    var times := ResolveTimes(c.alert, env.now, env.iso);
    if times.Err? {
      return Err(times.message);
    }
    if dimensions.None? {
      return Err(NotIterable);
    }
    var all := CollectFindings(env.db, c.brand.brandId, dimensions.value, times.value, env.textToNumber);
    all := SortByImpact(all);
    var valid := ValidCauses(all, TotalDrop(c.derived, env.textToNumber));
    ghost var before := c.analysis;
    if |valid| > 0 {
      var top := valid[0];
      var isDominant := top.impact > 60.0 || (|valid| == 1 && top.impact > 40.0);
      if !isDominant && |valid| > 1 {
        c.analysis := c.analysis.(mixedFactors := true);
      }
    }
    assert c.analysis == before.(mixedFactors := before.mixedFactors || Mixed(valid));
    c.analysis := c.analysis.(rootCauses := Some(valid));
    return Ok(Success(node.next));
  }
}
