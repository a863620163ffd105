/**
 * The insight node of src/nodes/insight.js: classifies the diagnosis by its
 * confidence and root causes, picks the summary wording, lists one detail
 * per cause, collects the limitations and builds the conclusion, then stores
 * the result as the final insight. Sentences are represented by the
 * constructor that selects their wording and the values that fill them.
 */
module InsightNode {
  import opened Wrappers
  import opened Js
  import opened Strings
  import opened Dsl
  import opened Context
  import opened Analysis

  /** `results.confidence || 0.5`, in hundredths: a missing or zero confidence counts as 0.5. */
  function EffectiveConfidence(r: AnalysisResults): (c: int)
    ensures r.confidence.None? || r.confidence.value == 0 ==> c == 50
    ensures r.confidence.Some? && r.confidence.value != 0 ==> c == r.confidence.value
  {
    if r.confidence.Some? && r.confidence.value != 0 then r.confidence.value else 50
  }

  /** The classification as the node computes it: thresholds first, then the override for no causes. */
  function Classify(causes: seq<Finding>, confidence: int): Classification {
    var byConfidence :=
      if causes != [] && confidence > 60 then Actionable
      else if confidence < 40 then Inconclusive
      else Investigating;
    if causes == [] then Inconclusive else byConfidence
  }

  /** The decision table of the classification. */
  lemma ClassificationTable(causes: seq<Finding>, confidence: int)
    ensures causes == [] ==> Classify(causes, confidence) == Inconclusive
    ensures causes != [] ==>
              (Classify(causes, confidence) == Actionable <==> confidence > 60) &&
              (Classify(causes, confidence) == Inconclusive <==> confidence < 40) &&
              (Classify(causes, confidence) == Investigating <==> 40 <= confidence <= 60)
  {
  }

  /** The summary prefix: above 0.8, above 0.6, or otherwise. */
  function BandOf(confidence: int): Band {
    if confidence > 80 then DrivenBy else if confidence > 60 then LikelyAssociated else PotentiallyRelated
  }

  function SummaryOf(causes: seq<Finding>, confidence: int, mixed: bool): (s: Summary)
    ensures causes == [] <==> s == InconclusiveSummary
    ensures causes != [] && mixed ==> s == MixedSummary(causes[0].dimension, causes[0].value)
    ensures causes != [] && !mixed ==> s.Pointed? && s.band == BandOf(confidence) &&
                                       s.dimension == causes[0].dimension && s.value == causes[0].value
  {
    if causes == [] then InconclusiveSummary
    else if mixed then MixedSummary(causes[0].dimension, causes[0].value)
    else Pointed(BandOf(confidence), causes[0].dimension, causes[0].value)
  }

  // ----- formatLabel -----

  /** `toUpperCase` on a single character of `\w`. */
  function Upper(c: char): char {
    if 'a' <= c <= 'z' then (c as int - 'a' as int + 'A' as int) as char else c
  }

  /** `s.replace(/_/g, ' ')`. */
  function SpaceUnderscores(s: string): (r: string)
    ensures |r| == |s|
    ensures forall i :: 0 <= i < |s| ==> r[i] == (if s[i] == '_' then ' ' else s[i])
  {
    seq(|s|, i requires 0 <= i < |s| => if s[i] == '_' then ' ' else s[i])
  }

  /** A `\b\w` match at `i`: a word character with no word character just before it. */
  predicate WordStart(s: string, i: int)
    requires 0 <= i < |s|
  {
    IsWordChar(s[i]) && (i == 0 || !IsWordChar(s[i - 1]))
  }

  /** `s.replace(/\b\w/g, c => c.toUpperCase())`. */
  function CapitalizeWords(s: string): (r: string)
    ensures |r| == |s|
    ensures forall i :: 0 <= i < |s| ==> r[i] == (if WordStart(s, i) then Upper(s[i]) else s[i])
  {
    seq(|s|, i requires 0 <= i < |s| => if WordStart(s, i) then Upper(s[i]) else s[i])
  }

  /** `formatLabel`: underscores become spaces and each word starts with a capital. */
  function FormatLabel(s: string): string {
    CapitalizeWords(SpaceUnderscores(s))
  }

  /** A label has no underscores left, keeps its length, and starts every word with a capital. */
  lemma FormatLabelShape(s: string)
    ensures |FormatLabel(s)| == |s|
    ensures forall i :: 0 <= i < |s| ==> FormatLabel(s)[i] != '_'
    ensures forall i :: 0 <= i < |s| && WordStart(FormatLabel(s), i) ==> !('a' <= FormatLabel(s)[i] <= 'z')
  {
    var t := SpaceUnderscores(s);
    var r := FormatLabel(s);
    forall i | 0 <= i < |s| && WordStart(r, i) ensures !('a' <= r[i] <= 'z') {
      assert IsWordChar(r[i]) == IsWordChar(t[i]);
      assert i > 0 ==> IsWordChar(r[i - 1]) == IsWordChar(t[i - 1]);
    }
  }

  /** Formatting a label again changes nothing. */
  lemma FormatLabelIdempotent(s: string)
    ensures FormatLabel(FormatLabel(s)) == FormatLabel(s)
  {
    var r := FormatLabel(s);
    var t := SpaceUnderscores(s);
    assert SpaceUnderscores(r) == r;
    forall i | 0 <= i < |r| ensures CapitalizeWords(r)[i] == r[i] {
      assert IsWordChar(r[i]) == IsWordChar(t[i]);
      assert i > 0 ==> IsWordChar(r[i - 1]) == IsWordChar(t[i - 1]);
    }
  }

  predicate LowerWord(w: string) {
    w != [] && forall i :: 0 <= i < |w| ==> 'a' <= w[i] <= 'z'
  }

  /** Two lower-case words joined by `_` become two capitalised words joined by a space. */
  lemma FormatLabelWords(a: string, b: string)
    requires LowerWord(a) && LowerWord(b)
    ensures FormatLabel(a + "_" + b) == [Upper(a[0])] + a[1..] + " " + [Upper(b[0])] + b[1..]
  {
    var s := a + "_" + b;
    var t := SpaceUnderscores(s);
    var want := [Upper(a[0])] + a[1..] + " " + [Upper(b[0])] + b[1..];
    forall i | 0 <= i < |s| ensures FormatLabel(s)[i] == want[i] {
      if i < |a| {
        assert t[i] == a[i];
        if i > 0 { assert t[i - 1] == a[i - 1]; }
      } else if i == |a| {
        assert t[i] == ' ';
      } else {
        assert t[i] == b[i - |a| - 1];
        if i > |a| + 1 { assert t[i - 1] == b[i - |a| - 2]; }
      }
    }
  }

  // ----- Details, limitations, conclusion -----

  /** `causes.map(c => ...)`: one detail per cause, in order. */
  function Details(causes: seq<Finding>): (d: seq<Detail>)
    ensures |d| == |causes|
    ensures forall i :: 0 <= i < |causes| ==>
              d[i] == Detail(FormatLabel(causes[i].dimension), causes[i].value, causes[i].change)
  {
    seq(|causes|, i requires 0 <= i < |causes| => Detail(FormatLabel(causes[i].dimension), causes[i].value, causes[i].change))
  }

  /** The fixed entry, then low confidence (below 0.6), mixed factors and partial data, in that order. */
  function Limitations(confidence: int, mixed: bool, partialData: bool): (l: seq<Limitation>)
    ensures |l| >= 1 && l[0] == GranularityLimit
    ensures LowConfidence in l <==> confidence < 60
    ensures MultipleFactors in l <==> mixed
    ensures PartialWindow in l <==> partialData
  {
    [GranularityLimit]
      + (if confidence < 60 then [LowConfidence] else [])
      + (if mixed then [MultipleFactors] else [])
      + (if partialData then [PartialWindow] else [])
  }

  /** The limitations appear in their fixed order: the list is strictly ordered by rank. */
  function Rank(l: Limitation): nat {
    match l
    case GranularityLimit => 0
    case LowConfidence => 1
    case MultipleFactors => 2
    case PartialWindow => 3
  }

  lemma LimitationsOrdered(confidence: int, mixed: bool, partialData: bool)
    ensures var l := Limitations(confidence, mixed, partialData);
            forall i, j :: 0 <= i < j < |l| ==> Rank(l[i]) < Rank(l[j])
  {
  }

  /** The primary-driver sentence chosen by the top cause's dimension. */
  function PrimaryOf(top: Finding): Primary {
    if top.dimension == "payment_gateway" then GatewayFailure(top.value)
    else if top.dimension == "discount_code" then DiscountCollapse(top.value)
    else if top.dimension == "product_id" || top.dimension == "product" then ProductDecline(top.value)
    else Identified(FormatLabel(top.dimension), top.value)
  }

  /** `generateConclusion`: the fixed text without causes; otherwise primary, impact and, when strong, the second cause. */
  function ConclusionOf(causes: seq<Finding>): (c: Conclusion)
    ensures causes == [] <==> c == NoPrimaryCause
    ensures c.Narrative? ==> c.primary == PrimaryOf(causes[0]) && c.impact == causes[0].change
    ensures c.Narrative? ==>
              (c.secondary.Some? <==> |causes| > 1 && causes[1].impact > 50.0) &&
              (c.secondary.Some? ==> c.secondary.value == Secondary(FormatLabel(causes[1].dimension), causes[1].value))
  {
    if causes == [] then NoPrimaryCause
    else
      var secondary :=
        if |causes| > 1 && causes[1].impact > 50.0 then Some(Secondary(FormatLabel(causes[1].dimension), causes[1].value))
        else None;
      Narrative(PrimaryOf(causes[0]), causes[0].change, secondary)
  }

  /** The diagnosis the node stores. */
  function DiagnosisOf(s: Ctx): Insight {
    var causes := s.analysis.rootCauses.GetOr([]);
    var confidence := EffectiveConfidence(s.analysis);
    Diagnosis(Classify(causes, confidence), causes,
              Report(SummaryOf(causes, confidence, s.analysis.mixedFactors), ConclusionOf(causes), Details(causes),
                     Limitations(confidence, s.analysis.mixedFactors, s.metadata.partialData), confidence))
  }

  /** The effect of the node on a context value. */
  function Step(node: Node, s: Ctx): Outcome {
    Outcome(Ok(Done), s.(finalInsight := Some(DiagnosisOf(s))))
  }

  /**
   * The node returns `done`, writes only `final_insight`, and stores a
   * diagnosis with the context's root causes and one detail per cause.
   */
  lemma StepSound(node: Node, s: Ctx)
    ensures Step(node, s).result == Ok(Done)
    ensures Step(node, s).ctx.(finalInsight := s.finalInsight) == s
    ensures var i := Step(node, s).ctx.finalInsight;
            i.Some? && InsightStatus(i.value) == "success" &&
            i.value.rootCauses == s.analysis.rootCauses.GetOr([]) &&
            |i.value.report.details| == |i.value.rootCauses|
  {
  }

  /** No root causes: inconclusive, whatever the confidence, with the fixed summary and conclusion. */
  lemma NoCausesInconclusive(node: Node, s: Ctx)
    requires s.analysis.rootCauses.GetOr([]) == []
    ensures var i := Step(node, s).ctx.finalInsight.value;
            i.classification == Inconclusive && i.report.summary == InconclusiveSummary &&
            i.report.conclusion == NoPrimaryCause
  {
  }

  /** The `limitations.push` sequence of the node. */
  method PushLimitations(confidence: int, mixed: bool, partialData: bool) returns (limitations: seq<Limitation>)
    ensures limitations == Limitations(confidence, mixed, partialData)
  {
    limitations := [GranularityLimit];
    if confidence < 60 {
      limitations := limitations + [LowConfidence];
    }
    if mixed {
      limitations := limitations + [MultipleFactors];
    }
    if partialData {
      limitations := limitations + [PartialWindow];
    }
  }

  /** `execute(node, context)`: the classification and limitations built step by step, then stored. */
  method Execute(node: Node, c: ExecutionContext) returns (r: Result<Transition>)
    modifies c
    ensures r == Step(node, old(c.State())).result
    ensures c.State() == Step(node, old(c.State())).ctx
  {
    var results := c.analysis;
    var causes := results.rootCauses.GetOr([]);
    var confidence := if results.confidence.Some? && results.confidence.value != 0 then results.confidence.value else 50;
    var classification := Investigating;
    if |causes| > 0 && confidence > 60 {
      classification := Actionable;
    } else if confidence < 40 {
      classification := Inconclusive;
    }
    var summary := InconclusiveSummary;
    if |causes| > 0 {
      var band := if confidence > 80 then DrivenBy else if confidence > 60 then LikelyAssociated else PotentiallyRelated;
      if results.mixedFactors {
        summary := MixedSummary(causes[0].dimension, causes[0].value);
      } else {
        summary := Pointed(band, causes[0].dimension, causes[0].value);
      }
    } else {
      classification := Inconclusive;
    }
    var details := Details(causes);
    var limitations := PushLimitations(confidence, results.mixedFactors, c.metadata.partialData);
    assert classification == Classify(causes, confidence);
    assert summary == SummaryOf(causes, confidence, results.mixedFactors);
    c.finalInsight := Some(Diagnosis(classification, causes,
                                     Report(summary, ConclusionOf(causes), details, limitations, confidence)));
    return Ok(Done);
  }
}
