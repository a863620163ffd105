/**
 * The execution context of src/core/context.js: the record every node
 * executor reads and updates, its initial value, the transition records
 * executors return, and the context as a plain JavaScript value (what the
 * branch evaluator's dotted paths walk).
 */
module Context {
  import opened Wrappers
  import opened Js
  import Window
  import Strings
  import Dsl
  import opened Analysis

  /** The incoming alert; "" stands for a missing text field. */
  datatype Alert = Alert(metric: string, dropPct: Option<real>, currentWindow: string,
                         baselineWindow: string, timestamp: string)

  datatype Brand = Brand(brandId: int)

  /**
   * `metadata`; `partialData` is the optional `partial_data` flag the
   * insight node consults, which nothing in the engine ever sets.
   */
  datatype Metadata = Metadata(workflowId: string, workflowVersion: nat, executedAt: string,
                               traceId: string, partialData: bool)

  /** One `drill_down_path` entry, "dimension=value". */
  datatype Segment = Segment(dimension: string, value: Value)

  /**
   * `analysis_results`. `confidence` is in hundredths; `mixedFactors` is
   * the flag `mixed_factors`, which is only ever set to true.
   */
  datatype AnalysisResults = AnalysisResults(rootCauses: Option<seq<Finding>>, confidence: Option<int>,
                                             mixedFactors: bool, drillDownPath: Option<seq<Segment>>)

  const EmptyAnalysis: AnalysisResults := AnalysisResults(None, None, false, None)

  datatype Classification = Actionable | Investigating | Inconclusive

  /** The confidence band that picks the summary's wording. */
  datatype Band = DrivenBy | LikelyAssociated | PotentiallyRelated

  datatype Summary =
    | Pointed(band: Band, dimension: string, value: Value)
    | MixedSummary(dimension: string, value: Value)
    | InconclusiveSummary

  /** The primary-driver sentence of the conclusion. */
  datatype Primary =
    | GatewayFailure(value: Value)
    | DiscountCollapse(value: Value)
    | ProductDecline(value: Value)
    | Identified(title: string, value: Value)

  /** A secondary factor named by the conclusion: its title (formatted dimension) and value. */
  datatype Secondary = Secondary(title: string, value: Value)

  datatype Conclusion =
    | NoPrimaryCause
    | Narrative(primary: Primary, impact: Change, secondary: Option<Secondary>)

  /** One `details` line: "<Label> '<value>': <change>". */
  datatype Detail = Detail(title: string, value: Value, change: Change)

  datatype Limitation = GranularityLimit | LowConfidence | MultipleFactors | PartialWindow

  /** The `insight` object of a diagnosis; `confidence` in hundredths. */
  datatype Report = Report(summary: Summary, conclusion: Conclusion, details: seq<Detail>,
                           limitations: seq<Limitation>, confidence: int)

  /** `final_insight`: a diagnosis (status "success"), or a suppression or deferral record. */
  datatype Insight =
    | Diagnosis(classification: Classification, rootCauses: seq<Finding>, report: Report)
    | SuppressedInsight(reason: string)
    | DeferredInsight(reason: string)

  function InsightStatus(i: Insight): string {
    match i
    case Diagnosis(_, _, _) => "success"
    case SuppressedInsight(_) => "suppressed"
    case DeferredInsight(_) => "deferred"
  }

  /** The context record. */
  datatype Ctx = Ctx(
    alert: Alert,
    brand: Brand,
    current: map<string, Value>,
    baseline: map<string, Value>,
    derived: map<string, Value>,
    intermediate: map<string, Value>,
    analysis: AnalysisResults,
    finalInsight: Option<Insight>,
    metadata: Metadata)

  /** `createExecutionContext(alert, brand, workflow)`, the clock reading and the UUID given. */
  function CreateExecutionContext(alert: Alert, brand: Brand, wf: Dsl.Workflow, executedAt: string, traceId: string): (c: Ctx)
    ensures c.alert == alert && c.brand == brand
    ensures c.current == map[] && c.baseline == map[] && c.derived == map[] && c.intermediate == map[]
    ensures c.analysis == EmptyAnalysis && c.finalInsight.None?
    ensures c.metadata.workflowId == wf.id && c.metadata.workflowVersion == wf.version
    ensures c.metadata.executedAt == executedAt && c.metadata.traceId == traceId && !c.metadata.partialData
  {
    Ctx(alert, brand, map[], map[], map[], map[], EmptyAnalysis, None,
        Metadata(wf.id, wf.version, executedAt, traceId, false))
  }

  /** The shared, mutable context object of one run. */
  class ExecutionContext {
    var alert: Alert
    var brand: Brand
    var current: map<string, Value>
    var baseline: map<string, Value>
    var derived: map<string, Value>
    var intermediate: map<string, Value>
    var analysis: AnalysisResults
    var finalInsight: Option<Insight>
    var metadata: Metadata

    function State(): Ctx
      reads this
    {
      Ctx(alert, brand, current, baseline, derived, intermediate, analysis, finalInsight, metadata)
    }

    constructor (s: Ctx)
      ensures State() == s
    {
      alert, brand, current, baseline := s.alert, s.brand, s.current, s.baseline;
      derived, intermediate, analysis := s.derived, s.intermediate, s.analysis;
      finalInsight, metadata := s.finalInsight, s.metadata;
    }
  }

  /** The `{ status, next }` / `{ status, reason }` record an executor returns. */
  datatype Transition =
    | Success(next: string)
    | Done
    | Suppressed(reason: string)
    | Deferred(reason: string)
    | Terminate(reason: string)

  /** What one executor call yields: its transition, or the message it throws, and the context after it. */
  datatype Outcome = Outcome(result: Result<Transition>, ctx: Ctx)

  // ----- Windows of the alert -----

  /** `parseWindow(current_window || new Date().toISOString())`; the clock's own instant needs no parsing. */
  function CurrentWindowOnly(alert: Alert, now: int, iso: string -> Option<int>): Result<(Window.Instant, Window.Instant)> {
    if alert.currentWindow != "" then Window.ParseWindow(alert.currentWindow, Window.At(now), iso)
    else Ok((Window.At(now), Window.At(now + Window.HourMs)))
  }

  /**
   * The time context shared by metric_compare, breakdown and drill-down:
   * `current_window || timestamp || now` for the current window, and
   * `baseline_window || 'avg_prev_3_days_same_hour'` resolved against the
   * current window's start.
   */
  function ResolveTimes(alert: Alert, now: int, iso: string -> Option<int>): Result<TimeContext> {
    var current :=
      if alert.currentWindow != "" then Window.ParseWindow(alert.currentWindow, Window.At(now), iso)
      else if alert.timestamp != "" then Window.ParseWindow(alert.timestamp, Window.At(now), iso)
      else Ok((Window.At(now), Window.At(now + Window.HourMs)));
    match current
    case Err(m) => Err(m)
    case Ok(c) =>
      var token := if alert.baselineWindow != "" then alert.baselineWindow else DefaultBaseline;
      match Window.ParseWindow(token, c.0, iso)
      case Err(m) => Err(m)
      case Ok(b) => Ok(TimeContext(c.0, c.1, b.0, b.1))
  }

  /**
   * An alert without windows or timestamp is analysed over the hour from
   * now, against the hour starting three days earlier.
   */
  lemma DefaultTimes(alert: Alert, now: int, iso: string -> Option<int>)
    requires alert.currentWindow == "" && alert.timestamp == "" && alert.baselineWindow == ""
    ensures ResolveTimes(alert, now, iso) ==
              Ok(TimeContext(Window.At(now), Window.At(now + Window.HourMs),
                             Window.At(now - 3 * Window.DayMs), Window.At(now - 3 * Window.DayMs + Window.HourMs)))
  {
    assert Strings.NatText(3) == "3";
    assert DefaultBaseline == "avg_prev_" + Strings.NatText(3) + "_days" + "_same_hour";
    Window.AvgPrevWindow(3, "_same_hour", now, iso);
  }

  const DefaultBaseline: string := "avg_prev_3_days_same_hour"

  // ----- The context as a JavaScript value -----

  function TextField(fields: map<string, Value>, key: string, s: string): map<string, Value> {
    if s != "" then fields[key := Str(s)] else fields
  }

  function AlertValue(a: Alert): Value {
    var m := TextField(TextField(TextField(map[], "metric", a.metric), "current_window", a.currentWindow),
                       "baseline_window", a.baselineWindow);
    var m := TextField(m, "timestamp", a.timestamp);
    Obj(if a.dropPct.Some? then m["drop_pct" := Num(a.dropPct.value)] else m)
  }

  function AnalysisValue(r: AnalysisResults): Value {
    var m: map<string, Value> := if r.confidence.Some? then map["confidence" := Num(r.confidence.value as real / 100.0)] else map[];
    Obj(if r.mixedFactors then m["mixed_factors" := Bool(true)] else m)
  }

  /**
   * The context as the object the branch evaluator walks. Array-valued
   * entries (root causes, drill-down path) and the body of a final insight
   * are not represented.
   */
  function View(c: Ctx): Value {
    Obj(map[
      "alert" := AlertValue(c.alert),
      "brand" := Obj(map["brand_id" := Num(c.brand.brandId as real)]),
      "current" := Obj(c.current),
      "baseline" := Obj(c.baseline),
      "derived" := Obj(c.derived),
      "intermediate" := Obj(c.intermediate),
      "analysis_results" := AnalysisValue(c.analysis),
      "final_insight" := (if c.finalInsight.Some? then Obj(map["status" := Str(InsightStatus(c.finalInsight.value))]) else Null),
      "metadata" := Obj(map[
        "workflow_id" := Str(c.metadata.workflowId),
        "workflow_version" := Num(c.metadata.workflowVersion as real),
        "executed_at" := Str(c.metadata.executedAt),
        "trace_id" := Str(c.metadata.traceId)])
    ])
  }
}
