/**
 * The node registry of src/nodes/index.js: a constant table from the ten
 * type tags to their executors, and the lookup the engine uses.
 */
module Registry {
  import opened Wrappers

  /** The executor a registered tag names. */
  datatype Kind =
    | Validation
    | MetricCompare
    | Branch
    | Breakdown
    | DrillDown
    | Composite
    | Insight
    | Suppression
    | Confidence
    | Defer

  /** The registry's entries, in declaration order. */
  const Kinds: seq<Kind> :=
    [Validation, MetricCompare, Branch, Breakdown, DrillDown, Composite, Insight, Suppression, Confidence, Defer]

  /** The key under which each executor is registered. */
  function Tag(k: Kind): string {
    match k
    case Validation => "validation"
    case MetricCompare => "metric_compare"
    case Branch => "branch"
    case Breakdown => "recursive_dimension_breakdown"
    case DrillDown => "drill_down"
    case Composite => "composite"
    case Insight => "insight"
    case Suppression => "suppression"
    case Confidence => "confidence"
    case Defer => "defer"
  }

  /** The entry of `entries` whose key is `tag`, in order. */
  function Find(entries: seq<Kind>, tag: string): Option<Kind>
    decreases |entries|
  {
    if entries == [] then None
    else if Tag(entries[0]) == tag then Some(entries[0])
    else Find(entries[1..], tag)
  }

  /** `Find` answers an entry listed under `tag`, and nothing exactly when no entry is. */
  lemma {:induction false} FindSound(entries: seq<Kind>, tag: string)
    ensures Find(entries, tag).Some? ==> Find(entries, tag).value in entries && Tag(Find(entries, tag).value) == tag
    ensures Find(entries, tag).None? <==> forall i :: 0 <= i < |entries| ==> Tag(entries[i]) != tag
    decreases |entries|
  {
    if entries != [] && Tag(entries[0]) != tag {
      FindSound(entries[1..], tag);
      assert forall i :: 1 <= i < |entries| ==> entries[i] == entries[1..][i - 1];
    }
  }

  /** `getNodeExecutor(type)`: `NODE_REGISTRY[type]`, absent for any other tag. */
  function GetNodeExecutor(tag: string): (r: Option<Kind>)
    ensures r.Some? ==> Tag(r.value) == tag
  {
    FindSound(Kinds, tag);
    Find(Kinds, tag)
  }

  /** The table has exactly ten entries: every executor is listed once, under a key of its own. */
  lemma TenEntries()
    ensures |Kinds| == 10
    ensures forall k: Kind :: k in Kinds
    ensures forall i, j :: 0 <= i < j < |Kinds| ==> Tag(Kinds[i]) != Tag(Kinds[j])
  {
    forall k: Kind ensures k in Kinds {
      match k
      case Validation => assert Kinds[0] == k;
      case MetricCompare => assert Kinds[1] == k;
      case Branch => assert Kinds[2] == k;
      case Breakdown => assert Kinds[3] == k;
      case DrillDown => assert Kinds[4] == k;
      case Composite => assert Kinds[5] == k;
      case Insight => assert Kinds[6] == k;
      case Suppression => assert Kinds[7] == k;
      case Confidence => assert Kinds[8] == k;
      case Defer => assert Kinds[9] == k;
    }
  }

  /** Distinct executors are registered under distinct keys. */
  lemma TagInjective(a: Kind, b: Kind)
    requires Tag(a) == Tag(b)
    ensures a == b
  {
    TenEntries();
    var i, j := Position(a), Position(b);
    assert !(i < j) && !(j < i);
  }

  /** A tag finds an executor exactly when it is that executor's key. */
  lemma Lookup(tag: string, k: Kind)
    ensures GetNodeExecutor(tag) == Some(k) <==> Tag(k) == tag
  {
    if Tag(k) == tag {
      FindSound(Kinds, tag);
      TenEntries();
      assert Kinds[Position(k)] == k;
      TagInjective(GetNodeExecutor(tag).value, k);
    }
  }

  /** Where an executor sits in the table. */
  function Position(k: Kind): (i: nat)
    ensures i < |Kinds| && Kinds[i] == k
  {
    match k
    case Validation => 0
    case MetricCompare => 1
    case Branch => 2
    case Breakdown => 3
    case DrillDown => 4
    case Composite => 5
    case Insight => 6
    case Suppression => 7
    case Confidence => 8
    case Defer => 9
  }

  /** A tag has no executor exactly when it is none of the table's keys. */
  lemma UnknownTag(tag: string)
    ensures GetNodeExecutor(tag) == None <==> forall i :: 0 <= i < |Kinds| ==> Tag(Kinds[i]) != tag
  {
    FindSound(Kinds, tag);
  }
}
