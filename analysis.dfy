/**
 * The shared analysis library of src/core/analysis-lib.js: a dimension is
 * queried for the current and the baseline window, the rows are normalised,
 * each current row is matched with the baseline row of the same value, the
 * matched pairs are scored, and the findings are sorted by descending impact.
 * Any failure yields no findings.
 */
module Analysis {
  import opened Wrappers
  import opened Js
  import opened Queries
  import Window

  /** TEMPLATE_MAP: the template queried for each known dimension. */
  const TemplateMap: map<string, string> := map[
    "payment_gateway" := "PAYMENT_GATEWAY_DISTRIBUTION",
    "payment_failure_rate" := "PAYMENT_GATEWAY_PENDING_RATE",
    "discount_usage" := "DISCOUNT_USAGE_DISTRIBUTION",
    "discount_code" := "DISCOUNT_CODE_BREAKDOWN",
    "product" := "PRODUCT_CONVERSION_CONTRIBUTION",
    "product_id" := "PRODUCT_CONVERSION_CONTRIBUTION",
    "price_bucket" := "PRODUCT_PRICE_BUCKET_DISTRIBUTION",
    "aov_bucket" := "AOV_DISTRIBUTION",
    "customer_type" := "NEW_VS_RETURNING_CUSTOMERS",
    "time_clustering" := "ORDER_FAILURE_TIME_CLUSTER",
    "city" := "GEO_DISTRIBUTION",
    "utm_source" := "UTM_SOURCE_DISTRIBUTION",
    "utm_campaign" := "UTM_CAMPAIGN_DISTRIBUTION"
  ]

  /** The template used for a dimension TEMPLATE_MAP does not know. */
  const GenericTemplate: string := "DIMENSION_DISTRIBUTION"

  /** `{ cStart, cEnd, bStart, bEnd }`. */
  datatype TimeContext = TimeContext(cStart: Window.Instant, cEnd: Window.Instant,
                                     bStart: Window.Instant, bEnd: Window.Instant)

  /** The template and the positional parameters of the two queries for one dimension. */
  datatype QueryPlan = QueryPlan(template: string, currentParams: seq<Param>, baselineParams: seq<Param>)

  function PlanQueries(dimension: string, t: TimeContext): (p: QueryPlan)
    ensures dimension in TemplateMap ==>
              p.template == TemplateMap[dimension] &&
              p.currentParams == [Time(t.cStart), Time(t.cEnd)] &&
              p.baselineParams == [Time(t.bStart), Time(t.bEnd)]
    ensures dimension !in TemplateMap ==>
              p.template == GenericTemplate &&
              p.currentParams == [Text(dimension), Time(t.cStart), Time(t.cEnd), Time(t.cStart), Time(t.cEnd)] &&
              p.baselineParams == [Text(dimension), Time(t.bStart), Time(t.bEnd), Time(t.bStart), Time(t.bEnd)]
  {
    if dimension in TemplateMap then
      QueryPlan(TemplateMap[dimension], [Time(t.cStart), Time(t.cEnd)], [Time(t.bStart), Time(t.bEnd)])
    else
      QueryPlan(GenericTemplate,
                [Text(dimension), Time(t.cStart), Time(t.cEnd), Time(t.cStart), Time(t.cEnd)],
                [Text(dimension), Time(t.bStart), Time(t.bEnd), Time(t.bStart), Time(t.bEnd)])
  }

  // ----- Normalisation -----

  /** The columns that carry measures rather than the dimension's value. */
  predicate IsMeasureColumn(column: string) {
    column == "count" || column == "order_count" || column == "percentage" || column == "pending_rate"
  }

  /** The first column that is not a measure. */
  function FirstValueColumn(columns: seq<string>): (r: Option<nat>)
    ensures r.Some? ==> r.value < |columns| && !IsMeasureColumn(columns[r.value])
    ensures r.Some? ==> forall i :: 0 <= i < r.value ==> IsMeasureColumn(columns[i])
    ensures r.None? ==> forall i :: 0 <= i < |columns| ==> IsMeasureColumn(columns[i])
  {
    if columns == [] then None
    else if !IsMeasureColumn(columns[0]) then Some(0)
    else match FirstValueColumn(columns[1..])
      case None => None
      case Some(i) => Some(i + 1)
  }

  /** The key column of a row: the first non-measure column, or "unknown" when there is none (or it is named ""). */
  function KeyColumn(columns: seq<string>): string {
    match FirstValueColumn(columns)
    case Some(i) => if columns[i] != "" then columns[i] else "unknown"
    case None => "unknown"
  }

  /** A normalised row: the dimension value, the volume and, when the row has one, the pending rate. */
  datatype NormRow = NormRow(value: Value, count: Number, rate: Option<Number>)

  /** `r.count || r.order_count || 0`. */
  function CountCell(row: Row): Value {
    if Truthy(Cell(row, "count")) then Cell(row, "count")
    else if Truthy(Cell(row, "order_count")) then Cell(row, "order_count")
    else Num(0.0)
  }

  function NormalizeRow(row: Row, textToNumber: string -> Number): (r: NormRow)
    ensures r.value == Cell(row, KeyColumn(row.columns))
    ensures r.rate.Some? <==> Cell(row, "pending_rate") != Undef
    ensures r.rate.Some? ==> r.rate.value == ToNumber(Cell(row, "pending_rate"), textToNumber)
    ensures !Truthy(Cell(row, "count")) && !Truthy(Cell(row, "order_count")) ==> r.count == Finite(0.0)
    ensures Truthy(Cell(row, "count")) ==> r.count == ToNumber(Cell(row, "count"), textToNumber)
    ensures !Truthy(Cell(row, "count")) && Truthy(Cell(row, "order_count")) ==>
              r.count == ToNumber(Cell(row, "order_count"), textToNumber)
  {
    NormRow(Cell(row, KeyColumn(row.columns)),
            ToNumber(CountCell(row), textToNumber),
            if Cell(row, "pending_rate") != Undef then Some(ToNumber(Cell(row, "pending_rate"), textToNumber)) else None)
  }

  /** `normalizeRows`: one normalised row per row, in order. */
  function NormalizeRows(rows: seq<Row>, textToNumber: string -> Number): (r: seq<NormRow>)
    ensures |r| == |rows|
    ensures forall i :: 0 <= i < |rows| ==> r[i] == NormalizeRow(rows[i], textToNumber)
  {
    if rows == [] then [] else [NormalizeRow(rows[0], textToNumber)] + NormalizeRows(rows[1..], textToNumber)
  }

  // ----- Scoring -----

  /** How a segment changed: its pending rate rose, or its volume dropped by `pct` percent. */
  datatype Change = RateIncrease(from: real, to: real) | VolumeDrop(pct: real, from: real, to: real)

  /** One root-cause finding (`{ dimension, value, change, impact_score }`). */
  datatype Finding = Finding(dimension: string, value: Value, change: Change, impact: real)

  /** The rise of the pending rate, when both rates are numbers. */
  function RateRise(current: NormRow, baseline: NormRow): Option<real> {
    if current.rate.Some? && baseline.rate.Some? && current.rate.value.Finite? && baseline.rate.value.Finite? then
      Some(current.rate.value.x - baseline.rate.value.x)
    else None
  }

  /** The percentage volume change, when the baseline count exceeds 10 and both counts are numbers. */
  function VolumeChangePct(current: NormRow, baseline: NormRow): Option<real> {
    if baseline.count.Finite? && baseline.count.x > 10.0 && current.count.Finite? then
      Some((current.count.x - baseline.count.x) / baseline.count.x * 100.0)
    else None
  }

  /**
   * `analyzeSegment`: the rate rule (a rise of more than 5 points) is tried
   * first, then the volume rule (a drop of more than 15 percent).
   */
  function AnalyzeSegment(dimension: string, current: NormRow, baseline: NormRow): (r: Option<Finding>)
    ensures r.Some? ==> r.value.impact > 5.0 && r.value.dimension == dimension && r.value.value == current.value
    ensures RateRise(current, baseline).Some? && RateRise(current, baseline).value > 5.0 ==>
              r.Some? && r.value.change.RateIncrease? && r.value.impact == RateRise(current, baseline).value
    ensures (RateRise(current, baseline).None? || RateRise(current, baseline).value <= 5.0) ==>
              (r.Some? <==> VolumeChangePct(current, baseline).Some? && VolumeChangePct(current, baseline).value < -15.0)
    ensures r.Some? && r.value.change.VolumeDrop? ==> r.value.impact == -VolumeChangePct(current, baseline).value
  {
    var rise := RateRise(current, baseline);
    var pct := VolumeChangePct(current, baseline);
    if rise.Some? && rise.value > 5.0 then
      Some(Finding(dimension, current.value, RateIncrease(baseline.rate.value.x, current.rate.value.x), rise.value))
    else if pct.Some? && pct.value < -15.0 then
      Some(Finding(dimension, current.value, VolumeDrop(pct.value, baseline.count.x, current.count.x), -pct.value))
    else None
  }

  /** A drop from 100 to 80 scores 20; a drop from 100 to 90 scores nothing. */
  lemma VolumeRuleExamples(dimension: string, v: Value)
    ensures AnalyzeSegment(dimension, NormRow(v, Finite(80.0), None), NormRow(v, Finite(100.0), None))
              == Some(Finding(dimension, v, VolumeDrop(-20.0, 100.0, 80.0), 20.0))
    ensures AnalyzeSegment(dimension, NormRow(v, Finite(90.0), None), NormRow(v, Finite(100.0), None)).None?
  {
    assert VolumeChangePct(NormRow(v, Finite(80.0), None), NormRow(v, Finite(100.0), None)) == Some(-20.0);
    assert VolumeChangePct(NormRow(v, Finite(90.0), None), NormRow(v, Finite(100.0), None)) == Some(-10.0);
  }

  // ----- Matching -----

  /**
   * `new Map(bNorm.map(r => [r.value, r])).get(value)`: the last baseline
   * row with that value, as a later entry overwrites an earlier one.
   */
  function BaselineFor(baseline: seq<NormRow>, value: Value): (r: Option<NormRow>)
    ensures r.None? <==> forall i :: 0 <= i < |baseline| ==> baseline[i].value != value
    ensures r.Some? ==> exists i :: 0 <= i < |baseline| && baseline[i] == r.value && r.value.value == value &&
                          forall j :: i < j < |baseline| ==> baseline[j].value != value
  {
    if baseline == [] then None
    else if baseline[|baseline| - 1].value == value then Some(baseline[|baseline| - 1])
    else
      var init := baseline[..|baseline| - 1];
      var r := BaselineFor(init, value);
      assert forall i :: 0 <= i < |init| ==> init[i] == baseline[i];
      if r.Some? then
        var i :| 0 <= i < |init| && init[i] == r.value && r.value.value == value &&
                 forall j :: i < j < |init| ==> init[j].value != value;
        assert baseline[i] == r.value;
        r
      else r
  }

  /** The finding one current row contributes: none without a baseline partner or a firing rule. */
  function FindingFor(dimension: string, current: NormRow, baseline: seq<NormRow>): Option<Finding> {
    match BaselineFor(baseline, current.value)
    case None => None
    case Some(b) => AnalyzeSegment(dimension, current, b)
  }

  /** The findings of the current rows, in their order (the loop of `analyzeDimension`). */
  function Matched(dimension: string, current: seq<NormRow>, baseline: seq<NormRow>): seq<Finding> {
    if current == [] then []
    else
      var last := current[|current| - 1];
      Matched(dimension, current[..|current| - 1], baseline) +
        (match FindingFor(dimension, last, baseline) case Some(f) => [f] case None => [])
  }

  /** What a finding is made of: a current row whose value also occurs among the baseline rows, with impact above 5. */
  predicate Supported(f: Finding, dimension: string, current: seq<NormRow>, baseline: seq<NormRow>) {
    f.dimension == dimension && f.impact > 5.0 &&
    (exists i :: 0 <= i < |current| && current[i].value == f.value) &&
    (exists j :: 0 <= j < |baseline| && baseline[j].value == f.value)
  }

  /** Only matched current rows yield findings, and every finding scores above 5. */
  lemma {:induction false} MatchedSupported(dimension: string, current: seq<NormRow>, baseline: seq<NormRow>)
    ensures forall f :: f in Matched(dimension, current, baseline) ==> Supported(f, dimension, current, baseline)
    ensures |Matched(dimension, current, baseline)| <= |current|
  {
    if current != [] {
      var init := current[..|current| - 1];
      var last := current[|current| - 1];
      MatchedSupported(dimension, init, baseline);
      forall f | f in Matched(dimension, current, baseline)
        ensures Supported(f, dimension, current, baseline)
      {
        if f in Matched(dimension, init, baseline) {
          assert Supported(f, dimension, init, baseline);
          var i :| 0 <= i < |init| && init[i].value == f.value;
          assert current[i] == init[i];
        } else {
          assert FindingFor(dimension, last, baseline) == Some(f);
          var b := BaselineFor(baseline, last.value).value;
          assert current[|current| - 1].value == f.value;
        }
      }
    }
  }

  /** A current row whose value no baseline row has contributes nothing. */
  lemma UnmatchedRowDropped(dimension: string, current: NormRow, baseline: seq<NormRow>)
    requires forall j :: 0 <= j < |baseline| ==> baseline[j].value != current.value
    ensures FindingFor(dimension, current, baseline).None?
  {
  }

  // ----- Ordering -----

  /** Non-increasing impact. */
  predicate SortedByImpact(s: seq<Finding>) {
    forall i, j :: 0 <= i < j < |s| ==> s[i].impact >= s[j].impact
  }

  /** The findings of a given impact, in order. */
  function WithImpact(s: seq<Finding>, impact: real): seq<Finding> {
    if s == [] then []
    else (if s[0].impact == impact then [s[0]] else []) + WithImpact(s[1..], impact)
  }

  /** Inserts `x` before the first element whose impact is not larger than its own. */
  function Insert(x: Finding, s: seq<Finding>): seq<Finding> {
    if s == [] || s[0].impact <= x.impact then [x] + s else [s[0]] + Insert(x, s[1..])
  }

  /** The array sort with comparator `(a, b) => b.impact_score - a.impact_score`, which is stable. */
  function SortByImpact(s: seq<Finding>): seq<Finding> {
    if s == [] then [] else Insert(s[0], SortByImpact(s[1..]))
  }

  lemma {:induction false} InsertSorted(x: Finding, s: seq<Finding>)
    requires SortedByImpact(s)
    ensures SortedByImpact(Insert(x, s))
  {
    if s != [] && s[0].impact > x.impact {
      var t := Insert(x, s[1..]);
      InsertSorted(x, s[1..]);
      InsertBounded(x, s[1..], s[0].impact);
      var r := [s[0]] + t;
      forall i, j | 0 <= i < j < |r| ensures r[i].impact >= r[j].impact {
        if i == 0 {
          assert r[j] == t[j - 1];
        } else {
          assert r[i] == t[i - 1] && r[j] == t[j - 1];
        }
      }
    }
  }

  /** Inserting below a bound keeps every impact below it. */
  lemma {:induction false} InsertBounded(x: Finding, s: seq<Finding>, bound: real)
    requires x.impact <= bound
    requires forall i :: 0 <= i < |s| ==> s[i].impact <= bound
    ensures forall i :: 0 <= i < |Insert(x, s)| ==> Insert(x, s)[i].impact <= bound
  {
    if s != [] && s[0].impact > x.impact {
      InsertBounded(x, s[1..], bound);
      var t := Insert(x, s[1..]);
      assert forall i :: 1 <= i < |t| + 1 ==> ([s[0]] + t)[i] == t[i - 1];
    }
  }

  lemma {:induction false} InsertPermutes(x: Finding, s: seq<Finding>)
    ensures multiset(Insert(x, s)) == multiset(s) + multiset{x}
  {
    if s != [] && s[0].impact > x.impact {
      InsertPermutes(x, s[1..]);
      assert s == [s[0]] + s[1..];
    }
  }

  lemma {:induction false} InsertKeepsTies(x: Finding, s: seq<Finding>, v: real)
    ensures WithImpact(Insert(x, s), v) == (if x.impact == v then [x] else []) + WithImpact(s, v)
  {
    var head: seq<Finding> := if x.impact == v then [x] else [];
    if s == [] || s[0].impact <= x.impact {
      var r := [x] + s;
      assert Insert(x, s) == r;
      assert r[1..] == s;
      assert WithImpact(r, v) == head + WithImpact(s, v);
    } else {
      var t := Insert(x, s[1..]);
      var r := [s[0]] + t;
      assert Insert(x, s) == r;
      InsertKeepsTies(x, s[1..], v);
      assert r[1..] == t;
      var h0: seq<Finding> := if s[0].impact == v then [s[0]] else [];
      assert WithImpact(r, v) == h0 + WithImpact(t, v);
      assert WithImpact(s, v) == h0 + WithImpact(s[1..], v);
      if x.impact == v {
        assert h0 == [];
      }
    }
  }

  /**
   * The sort returns a permutation of its input in non-increasing impact
   * order, and findings of equal impact keep their relative order.
   */
  lemma {:induction false} SortByImpactCorrect(s: seq<Finding>)
    ensures SortedByImpact(SortByImpact(s))
    ensures multiset(SortByImpact(s)) == multiset(s)
    ensures forall v :: WithImpact(SortByImpact(s), v) == WithImpact(s, v)
  {
    if s != [] {
      SortByImpactCorrect(s[1..]);
      InsertSorted(s[0], SortByImpact(s[1..]));
      InsertPermutes(s[0], SortByImpact(s[1..]));
      forall v ensures WithImpact(SortByImpact(s), v) == WithImpact(s, v) {
        InsertKeepsTies(s[0], SortByImpact(s[1..]), v);
      }
      assert s == [s[0]] + s[1..];
    }
  }

  // ----- One dimension -----

  /** Both queries of a plan, with the same filters; either failure is the failure of the pair. */
  function FetchBoth(db: Db, brandId: int, plan: QueryPlan, filters: seq<Filter>): Result<(seq<Row>, seq<Row>)> {
    match ExecuteTemplate(db, brandId, plan.template, plan.currentParams, filters)
    case Err(m) => Err(m)
    case Ok(currentRows) =>
      match ExecuteTemplate(db, brandId, plan.template, plan.baselineParams, filters)
      case Err(m) => Err(m)
      case Ok(baselineRows) => Ok((currentRows, baselineRows))
  }

  /** Normalise both row sets, match, score and sort. */
  function CompareRows(dimension: string, currentRows: seq<Row>, baselineRows: seq<Row>,
                       textToNumber: string -> Number): seq<Finding>
  {
    SortByImpact(Matched(dimension, NormalizeRows(currentRows, textToNumber), NormalizeRows(baselineRows, textToNumber)))
  }

  /**
   * `analyzeDimension`: the query plan for the dimension, both windows
   * fetched with the same filters, then match, score and sort. A failure of
   * either query, including a template that does not exist, yields [].
   */
  function Analyze(db: Db, brandId: int, dimension: string, t: TimeContext, filters: seq<Filter>,
                   textToNumber: string -> Number): seq<Finding>
  {
    match FetchBoth(db, brandId, PlanQueries(dimension, t), filters)
    case Err(_) => []
    case Ok(rows) => CompareRows(dimension, rows.0, rows.1, textToNumber)
  }

  /**
   * The compared rows are the matched findings reordered by impact, each
   * supported by a current row and a baseline row of its value.
   */
  lemma CompareRowsSound(dimension: string, currentRows: seq<Row>, baselineRows: seq<Row>,
                         textToNumber: string -> Number)
    ensures var current := NormalizeRows(currentRows, textToNumber);
            var baseline := NormalizeRows(baselineRows, textToNumber);
            var r := CompareRows(dimension, currentRows, baselineRows, textToNumber);
            SortedByImpact(r) && multiset(r) == multiset(Matched(dimension, current, baseline)) &&
            forall f :: f in r ==> Supported(f, dimension, current, baseline)
  {
    var current := NormalizeRows(currentRows, textToNumber);
    var baseline := NormalizeRows(baselineRows, textToNumber);
    var m := Matched(dimension, current, baseline);
    SortByImpactCorrect(m);
    MatchedSupported(dimension, current, baseline);
    forall f | f in SortByImpact(m) ensures Supported(f, dimension, current, baseline) {
      assert f in multiset(SortByImpact(m));
    }
  }

  /**
   * The findings of a dimension are sorted by impact and each scores above 5.
   * When both queries succeed they are the matched findings reordered, and
   * each comes from a current row whose value a baseline row shares.
   */
  lemma AnalyzeSound(db: Db, brandId: int, dimension: string, t: TimeContext, filters: seq<Filter>,
                     textToNumber: string -> Number)
    ensures SortedByImpact(Analyze(db, brandId, dimension, t, filters, textToNumber))
    ensures forall f :: f in Analyze(db, brandId, dimension, t, filters, textToNumber) ==>
              f.dimension == dimension && f.impact > 5.0
    ensures FetchBoth(db, brandId, PlanQueries(dimension, t), filters).Ok? ==>
              var rows := FetchBoth(db, brandId, PlanQueries(dimension, t), filters).value;
              var current := NormalizeRows(rows.0, textToNumber);
              var baseline := NormalizeRows(rows.1, textToNumber);
              multiset(Analyze(db, brandId, dimension, t, filters, textToNumber)) == multiset(Matched(dimension, current, baseline)) &&
              forall f :: f in Analyze(db, brandId, dimension, t, filters, textToNumber) ==>
                Supported(f, dimension, current, baseline)
  {
    match FetchBoth(db, brandId, PlanQueries(dimension, t), filters)
    case Err(_) =>
    case Ok(rows) =>
      CompareRowsSound(dimension, rows.0, rows.1, textToNumber);
  }

  /**
   * A dimension whose template is missing from the template table yields no
   * findings: every dimension outside TEMPLATE_MAP (its generic template
   * does not exist), and "city", "utm_source" and "utm_campaign".
   */
  lemma MissingTemplateYieldsNothing(db: Db, brandId: int, dimension: string, t: TimeContext, filters: seq<Filter>,
                                     textToNumber: string -> Number)
    requires dimension !in TemplateMap || dimension in {"city", "utm_source", "utm_campaign"}
    ensures Analyze(db, brandId, dimension, t, filters, textToNumber) == []
  {
    var plan := PlanQueries(dimension, t);
    assert !IsTemplateName(plan.template);
  }

  /** A failure of either query degrades to the empty list. */
  lemma FailureYieldsNothing(db: Db, brandId: int, dimension: string, t: TimeContext, filters: seq<Filter>,
                             textToNumber: string -> Number)
    requires var plan := PlanQueries(dimension, t);
             ExecuteTemplate(db, brandId, plan.template, plan.currentParams, filters).Err? ||
             ExecuteTemplate(db, brandId, plan.template, plan.baselineParams, filters).Err?
    ensures Analyze(db, brandId, dimension, t, filters, textToNumber) == []
  {
  }

  /** The row loop of `analyzeDimension`: each current row is looked up among the baseline rows and scored. */
  method MatchRows(dimension: string, current: seq<NormRow>, baseline: seq<NormRow>) returns (acc: seq<Finding>)
    ensures acc == Matched(dimension, current, baseline)
  {
    acc := [];
    var i := 0;
    while i < |current|
      invariant 0 <= i <= |current|
      invariant acc == Matched(dimension, current[..i], baseline)
    {
      ghost var prefix := current[..i + 1];
      assert prefix[..i] == current[..i] && prefix[i] == current[i];
      var b := BaselineFor(baseline, current[i].value);
      if b.Some? {
        var result := AnalyzeSegment(dimension, current[i], b.value);
        if result.Some? {
          acc := acc + [result.value];
        }
      }
      i := i + 1;
    }
    assert current[..|current|] == current;
  }

  /** `analyzeDimension`; proved to compute `Analyze`. */
  method AnalyzeDimension(db: Db, brandId: int, dimension: string, t: TimeContext, filters: seq<Filter>,
                          textToNumber: string -> Number) returns (findings: seq<Finding>)
    ensures findings == Analyze(db, brandId, dimension, t, filters, textToNumber)
  {
    var fetched := FetchBoth(db, brandId, PlanQueries(dimension, t), filters);
    if fetched.Err? {
      return [];
    }
    var current := NormalizeRows(fetched.value.0, textToNumber);
    var baseline := NormalizeRows(fetched.value.1, textToNumber);
    var matched := MatchRows(dimension, current, baseline);
    findings := SortByImpact(matched);
  }
}
