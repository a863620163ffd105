/**
 * The metric_compare node of src/nodes/metric-compare.js: one OVERALL_SUMMARY
 * row per window, and for each of sessions, orders and cvr the current and
 * baseline values and their percentage change written into `derived`.
 */
module MetricCompareNode {
  import opened Wrappers
  import opened Js
  import opened Queries
  import opened Dsl
  import opened Context
  import opened Runtime

  /** The metrics compared, whatever the node asks for. */
  const Metrics: seq<string> := ["sessions", "orders", "cvr"]

  /** `rows[0] || {}`. */
  function FirstRow(rows: seq<Row>): Row {
    if rows == [] then Row([], map[]) else rows[0]
  }

  /** `Number(row[m]) || 0`: a missing or non-numeric value counts as 0. */
  function MetricValue(row: Row, m: string, textToNumber: string -> Number): real {
    match ToNumber(Cell(row, m), textToNumber)
    case Finite(x) => x
    case NaN => 0.0
  }

  /** The percentage change; a zero baseline gives 0 rather than a division. */
  function PctChange(current: real, baseline: real): (p: real)
    ensures baseline == 0.0 ==> p == 0.0
    ensures baseline != 0.0 ==> p * baseline == (current - baseline) * 100.0
  {
    if baseline == 0.0 then 0.0 else (current - baseline) / baseline * 100.0
  }

  /** `{ current, baseline, pct_change }`. */
  function Entry(c: real, b: real): Value {
    Obj(map["current" := Num(c), "baseline" := Num(b), "pct_change" := Num(PctChange(c, b))])
  }

  /** The `<m>_delta_pct` key. */
  function DeltaKey(m: string): string {
    m + "_delta_pct"
  }

  /** The funnel entries of the first `k` metrics. */
  function Funnel(cur: Row, base: Row, k: nat, textToNumber: string -> Number): map<string, Value>
    requires k <= |Metrics|
  {
    if k == 0 then map[]
    else
      var m := Metrics[k - 1];
      Funnel(cur, base, k - 1, textToNumber)[m := Entry(MetricValue(cur, m, textToNumber), MetricValue(base, m, textToNumber))]
  }

  /** `derived` after the first `k` iterations of the metric loop. */
  function DerivedAfter(d: map<string, Value>, cur: Row, base: Row, k: nat, textToNumber: string -> Number): map<string, Value>
    requires k <= |Metrics|
  {
    if k == 0 then d["funnel" := Obj(map[])]
    else
      var m := Metrics[k - 1];
      var p := PctChange(MetricValue(cur, m, textToNumber), MetricValue(base, m, textToNumber));
      DerivedAfter(d, cur, base, k - 1, textToNumber)["funnel" := Obj(Funnel(cur, base, k, textToNumber))][DeltaKey(m) := Num(p)]
  }

  /** The `<m>_delta_pct` keys written by the first `k` iterations. */
  function DeltaKeys(k: nat): seq<string>
    requires k <= |Metrics|
  {
    if k == 0 then [] else DeltaKeys(k - 1) + [DeltaKey(Metrics[k - 1])]
  }

  /** The funnel after `k` iterations holds exactly the first `k` metrics, each with its own entry. */
  lemma {:induction false} FunnelShape(cur: Row, base: Row, k: nat, textToNumber: string -> Number)
    requires k <= |Metrics|
    ensures forall m :: m in Funnel(cur, base, k, textToNumber) <==> m in Metrics[..k]
    ensures forall m :: m in Metrics[..k] ==>
              Funnel(cur, base, k, textToNumber)[m] == Entry(MetricValue(cur, m, textToNumber), MetricValue(base, m, textToNumber))
  {
    if k > 0 {
      FunnelShape(cur, base, k - 1, textToNumber);
      assert Metrics[..k] == Metrics[..k - 1] + [Metrics[k - 1]];
    }
  }

  /** After `k` iterations, `funnel` is the funnel of the first `k` metrics. */
  lemma DerivedFunnel(d: map<string, Value>, cur: Row, base: Row, k: nat, textToNumber: string -> Number)
    requires k <= |Metrics|
    ensures var d' := DerivedAfter(d, cur, base, k, textToNumber);
            "funnel" in d' && d'["funnel"] == Obj(Funnel(cur, base, k, textToNumber))
  {
  }

  /** Distinct metrics have distinct `<m>_delta_pct` keys, none of them "funnel". */
  lemma DeltaKeysDistinct(k: nat)
    requires k < |Metrics|
    ensures DeltaKey(Metrics[k]) !in DeltaKeys(k) && DeltaKey(Metrics[k]) != "funnel"
  {
    assert forall j :: 0 <= j < k ==> |Metrics[j]| != |Metrics[k]|;
    assert forall j :: 0 <= j < k ==> DeltaKeys(k)[j] == DeltaKey(Metrics[j]) by {
      DeltaKeysAt(k);
    }
  }

  lemma {:induction false} DeltaKeysAt(k: nat)
    requires k <= |Metrics|
    ensures |DeltaKeys(k)| == k
    ensures forall j :: 0 <= j < k ==> DeltaKeys(k)[j] == DeltaKey(Metrics[j])
  {
    if k > 0 {
      DeltaKeysAt(k - 1);
    }
  }

  /** After `k` iterations, the `<m>_delta_pct` key of each of the first `k` metrics holds its percentage change. */
  lemma {:induction false} DerivedDeltas(d: map<string, Value>, cur: Row, base: Row, k: nat, textToNumber: string -> Number)
    requires k <= |Metrics|
    ensures var d' := DerivedAfter(d, cur, base, k, textToNumber);
            forall j :: 0 <= j < k ==>
              DeltaKey(Metrics[j]) in d' &&
              d'[DeltaKey(Metrics[j])] == Num(PctChange(MetricValue(cur, Metrics[j], textToNumber), MetricValue(base, Metrics[j], textToNumber)))
  {
    if k > 0 {
      DerivedDeltas(d, cur, base, k - 1, textToNumber);
      DeltaKeysAt(k - 1);
      DeltaKeysDistinct(k - 1);
    }
  }

  /** Only "funnel" and the `<m>_delta_pct` keys written so far differ from the `derived` the node started with. */
  lemma {:induction false} DerivedUntouched(d: map<string, Value>, cur: Row, base: Row, k: nat, textToNumber: string -> Number)
    requires k <= |Metrics|
    ensures var d' := DerivedAfter(d, cur, base, k, textToNumber);
            forall key :: key != "funnel" && key !in DeltaKeys(k) ==>
              (key in d' <==> key in d) && (key in d ==> d'[key] == d[key])
  {
    if k > 0 {
      DerivedUntouched(d, cur, base, k - 1, textToNumber);
    }
  }

  /** The keys the node writes besides "funnel". */
  lemma DeltaKeysNamed()
    ensures DeltaKeys(|Metrics|) == ["sessions_delta_pct", "orders_delta_pct", "cvr_delta_pct"]
  {
    assert DeltaKey("sessions") == "sessions_delta_pct";
    assert DeltaKey("orders") == "orders_delta_pct";
    assert DeltaKey("cvr") == "cvr_delta_pct";
    assert DeltaKeys(1) == ["sessions_delta_pct"];
    assert DeltaKeys(2) == ["sessions_delta_pct", "orders_delta_pct"];
  }

  /**
   * After the node, `funnel` holds exactly sessions, orders and cvr, each
   * metric's `<m>_delta_pct` equals that metric's `pct_change`, and every other
   * key of `derived` is as it was.
   */
  lemma DerivedWrites(d: map<string, Value>, cur: Row, base: Row, textToNumber: string -> Number)
    ensures var d' := DerivedAfter(d, cur, base, |Metrics|, textToNumber);
            var f := Funnel(cur, base, |Metrics|, textToNumber);
            d'["funnel"] == Obj(f) && (forall m :: m in f <==> m in Metrics) &&
            (forall m :: m in f ==>
               DeltaKey(m) in d' && Get(f[m], "pct_change") == d'[DeltaKey(m)] &&
               d'[DeltaKey(m)] == Num(PctChange(MetricValue(cur, m, textToNumber), MetricValue(base, m, textToNumber)))) &&
            (forall key :: key != "funnel" && key !in DeltaKeys(|Metrics|) ==>
               (key in d' <==> key in d) && (key in d ==> d'[key] == d[key]))
  {
    var n := |Metrics|;
    assert Metrics[..n] == Metrics;
    FunnelShape(cur, base, n, textToNumber);
    DerivedFunnel(d, cur, base, n, textToNumber);
    DerivedDeltas(d, cur, base, n, textToNumber);
    DerivedUntouched(d, cur, base, n, textToNumber);
    var d' := DerivedAfter(d, cur, base, n, textToNumber);
    var f := Funnel(cur, base, n, textToNumber);
    forall m | m in f
      ensures DeltaKey(m) in d' && Get(f[m], "pct_change") == d'[DeltaKey(m)]
    {
      var j :| 0 <= j < n && Metrics[j] == m;
    }
  }

  /** The two OVERALL_SUMMARY queries, current window first. */
  function FetchSummaries(db: Db, brandId: int, t: Analysis.TimeContext): Result<(seq<Row>, seq<Row>)> {
    match ExecuteTemplate(db, brandId, "OVERALL_SUMMARY", [Time(t.cStart), Time(t.cEnd)], [])
    case Err(m) => Err(m)
    case Ok(currentRows) =>
      match ExecuteTemplate(db, brandId, "OVERALL_SUMMARY", [Time(t.bStart), Time(t.bEnd)], [])
      case Err(m) => Err(m)
      case Ok(baselineRows) => Ok((currentRows, baselineRows))
  }

  /** The effect of the node on a context value; a failed window or query leaves it unchanged. */
  function Step(node: Node, s: Ctx, env: Env): Outcome {
    match ResolveTimes(s.alert, env.now, env.iso)
    case Err(m) => Outcome(Err(m), s)
    case Ok(t) =>
      match FetchSummaries(env.db, s.brand.brandId, t)
      case Err(m) => Outcome(Err(m), s)
      case Ok(rows) =>
        Outcome(Ok(Success(node.next)),
                s.(derived := DerivedAfter(s.derived, FirstRow(rows.0), FirstRow(rows.1), 3, env.textToNumber)))
  }

  /** On success the node moves to `node.next` and changes `derived` only. */
  lemma StepFrame(node: Node, s: Ctx, env: Env)
    ensures Step(node, s, env).result.Ok? ==> Step(node, s, env).result.value == Success(node.next)
    ensures Step(node, s, env).ctx.(derived := s.derived) == s
  {
  }

  /** `execute(node, context)`: the metric loop writes `derived` in place. */
  method Execute(node: Node, c: ExecutionContext, env: Env) returns (r: Result<Transition>)
    modifies c
    ensures r == Step(node, old(c.State()), env).result
    ensures c.State() == Step(node, old(c.State()), env).ctx
  {
    var times := ResolveTimes(c.alert, env.now, env.iso);
    if times.Err? {
      return Err(times.message);
    }
    var fetched := FetchSummaries(env.db, c.brand.brandId, times.value);
    if fetched.Err? {
      return Err(fetched.message);
    }
    var cur := FirstRow(fetched.value.0);
    var base := FirstRow(fetched.value.1);
    ghost var d0 := c.derived;
    var funnel: map<string, Value> := map[];
    c.derived := c.derived["funnel" := Obj(funnel)];
    var i := 0;
    while i < |Metrics|
      invariant 0 <= i <= |Metrics|
      invariant funnel == Funnel(cur, base, i, env.textToNumber)
      invariant c.derived == DerivedAfter(d0, cur, base, i, env.textToNumber)
      invariant c.State() == old(c.State()).(derived := c.derived)
    {
      var m := Metrics[i];
      var cVal := MetricValue(cur, m, env.textToNumber);
      var bVal := MetricValue(base, m, env.textToNumber);
      var pctChange := PctChange(cVal, bVal);
      funnel := funnel[m := Entry(cVal, bVal)];
      c.derived := c.derived["funnel" := Obj(funnel)][DeltaKey(m) := Num(pctChange)];
      i := i + 1;
    }
    return Ok(Success(node.next));
  }
}
