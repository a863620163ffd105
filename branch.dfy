/**
 * The branch node of src/nodes/branch.js: rules are tried in order and the
 * first whose condition holds picks the next node; otherwise the default
 * path, a terminate default, or a terminate with a fixed reason.
 *
 * A condition is an expression string with a flat grammar: split on " OR ",
 * each part trimmed and split on " AND ", each part of that trimmed and read
 * as a leaf `field op literal`. Operands are looked up in `derived` first
 * and otherwise along a dotted path from the context root.
 */
module BranchNode {
  import opened Wrappers
  import opened Js
  import opened Strings
  import opened Dsl
  import opened Context
  import opened Runtime

  const NoMatchReason: string := "No matching rule and no default path"

  // ----- Field lookup -----

  /** What a lookup sees: the flat `derived` map, and the context as an object for dotted paths. */
  datatype Scope = Scope(derived: map<string, Value>, root: Value)

  function ScopeOf(s: Ctx): Scope {
    Scope(s.derived, View(s))
  }

  /** `path.split('.').reduce((acc, part) => acc && acc[part], obj)`: a falsy value stops the walk and is the result. */
  function Walk(acc: Value, parts: seq<string>): Value
    decreases |parts|
  {
    if parts == [] then acc
    else Walk(if Truthy(acc) then Get(acc, parts[0]) else acc, parts[1..])
  }

  /** Once the walk meets a falsy value, that value is the result, however many parts remain. */
  lemma {:induction false} WalkStopsAtFalsy(acc: Value, parts: seq<string>)
    requires !Truthy(acc)
    ensures Walk(acc, parts) == acc
    decreases |parts|
  {
    if parts != [] {
      WalkStopsAtFalsy(acc, parts[1..]);
    }
  }

  /** `getByPath(context, path)`: a defined flat `derived[path]` wins; otherwise the dotted walk. */
  function GetByPath(sc: Scope, path: string): Value {
    if path in sc.derived && sc.derived[path] != Undef then sc.derived[path]
    else Walk(sc.root, Split(path, "."))
  }

  /** The context object exposes `derived` under its own name. */
  lemma ViewDerived(s: Ctx)
    ensures Get(View(s), "derived") == Obj(s.derived)
  {
  }

  /** A two-part dotted path reads one field inside another, unless a flat `derived` key of that name shadows it. */
  lemma DottedLookup(sc: Scope, a: string, k: string)
    requires !Contains(a, ".") && !Contains(k, ".") && Truthy(Get(sc.root, a))
    requires a + "." + k !in sc.derived || sc.derived[a + "." + k] == Undef
    ensures GetByPath(sc, a + "." + k) == Get(Get(sc.root, a), k)
  {
    SplitAfter(a, ".", k);
    var parts := Split(a + "." + k, ".");
    assert parts == [a, k];
    assert parts[1..] == [k] && parts[1..][1..] == [];
    assert Walk(sc.root, parts) == Walk(Get(sc.root, a), [k]);
    assert Walk(Get(sc.root, a), [k]) == Walk(Get(Get(sc.root, a), k), []);
  }

  // ----- Comparison -----

  /** The six operators of a leaf. */
  datatype Op = Ge | Le | Gt | Lt | Eq | Ne

  function OpText(op: Op): string {
    match op
    case Ge => ">="
    case Le => "<="
    case Gt => ">"
    case Lt => "<"
    case Eq => "=="
    case Ne => "!="
  }

  /** The operator a `switch (op)` case label names, if any. */
  function OpNamed(t: string): (r: Option<Op>)
    ensures r.Some? ==> OpText(r.value) == t
  {
    if |t| == 2 && t[1] == '=' then
      if t[0] == '>' then Some(Ge)
      else if t[0] == '<' then Some(Le)
      else if t[0] == '=' then Some(Eq)
      else if t[0] == '!' then Some(Ne)
      else None
    else if |t| == 1 && t[0] == '>' then Some(Gt)
    else if |t| == 1 && t[0] == '<' then Some(Lt)
    else None
  }

  lemma OpNamedText(op: Op)
    ensures OpNamed(OpText(op)) == Some(op)
  {
  }

  /**
   * `compare(a, op, b)` on numeric operands: undefined on either side is
   * false for every operator; NaN compares unequal to everything; an
   * operator outside the six is false.
   */
  function Compare(a: Value, op: string, b: Value, textToNumber: string -> Number): (r: bool)
    ensures a == Undef || b == Undef ==> !r
    ensures OpNamed(op).None? ==> !r
  {
    if a == Undef || b == Undef then false
    else
      match OpNamed(op)
      case None => false
      case Some(o) =>
        match (ToNumber(a, textToNumber), ToNumber(b, textToNumber))
        case (Finite(x), Finite(y)) =>
          (match o
           case Gt => x > y
           case Ge => x >= y
           case Lt => x < y
           case Le => x <= y
           case Eq => x == y
           case Ne => x != y)
        case _ => o == Ne
  }

  // ----- Leaf grammar -----

  /** `[\w\._]`. */
  predicate IsFieldChar(c: char) {
    IsWordChar(c) || c == '.'
  }

  /** `[-\w\.]`. */
  predicate IsLiteralChar(c: char) {
    IsWordChar(c) || c == '.' || c == '-'
  }

  predicate AllFieldChars(s: string) {
    forall i :: 0 <= i < |s| ==> IsFieldChar(s[i])
  }

  predicate AllSpaces(s: string) {
    forall i :: 0 <= i < |s| ==> IsSpace(s[i])
  }

  predicate AllLiteralChars(s: string) {
    forall i :: 0 <= i < |s| ==> IsLiteralChar(s[i])
  }

  /** Length of the longest prefix of `s` made of `[\w\._]`. */
  function FieldLen(s: string): (n: nat)
    ensures n <= |s| && AllFieldChars(s[..n]) && (n < |s| ==> !IsFieldChar(s[n]))
    decreases |s|
  {
    if s != [] && IsFieldChar(s[0]) then
      var m := FieldLen(s[1..]);
      assert s[..m + 1] == [s[0]] + s[1..][..m];
      m + 1
    else 0
  }

  /** Length of the longest prefix of `s` made of white space. */
  function SpaceLen(s: string): (n: nat)
    ensures n <= |s| && AllSpaces(s[..n]) && (n < |s| ==> !IsSpace(s[n]))
    decreases |s|
  {
    if s != [] && IsSpace(s[0]) then
      var m := SpaceLen(s[1..]);
      assert s[..m + 1] == [s[0]] + s[1..][..m];
      m + 1
    else 0
  }

  lemma {:induction false} FieldLenOf(a: string, b: string)
    requires AllFieldChars(a) && (b != [] ==> !IsFieldChar(b[0]))
    ensures FieldLen(a + b) == |a|
    decreases |a|
  {
    if a != [] {
      assert (a + b)[1..] == a[1..] + b;
      FieldLenOf(a[1..], b);
    } else {
      assert a + b == b;
    }
  }

  lemma {:induction false} SpaceLenOf(a: string, b: string)
    requires AllSpaces(a) && (b != [] ==> !IsSpace(b[0]))
    ensures SpaceLen(a + b) == |a|
    decreases |a|
  {
    if a != [] {
      assert (a + b)[1..] == a[1..] + b;
      SpaceLenOf(a[1..], b);
    } else {
      assert a + b == b;
    }
  }

  /** The operator at the start of `s`: `>=` and `<=` are tried before `>` and `<`. */
  function OpAt(s: string): (r: Option<Op>)
    ensures r.Some? ==> |OpText(r.value)| <= |s| && s[..|OpText(r.value)|] == OpText(r.value)
  {
    if |s| >= 2 && s[0] == '>' && s[1] == '=' then Some(Ge)
    else if |s| >= 2 && s[0] == '<' && s[1] == '=' then Some(Le)
    else if |s| >= 1 && s[0] == '>' then Some(Gt)
    else if |s| >= 1 && s[0] == '<' then Some(Lt)
    else if |s| >= 2 && s[0] == '=' && s[1] == '=' then Some(Eq)
    else if |s| >= 2 && s[0] == '!' && s[1] == '=' then Some(Ne)
    else None
  }

  datatype Leaf = Leaf(field: string, op: Op, literal: string)

  /** The three captures of `^([\w\._]+)\s*(>=|<=|>|<|==|!=)\s*([-\w\.]+)$`. */
  predicate WellFormed(l: Leaf) {
    l.field != [] && AllFieldChars(l.field) && l.literal != [] && AllLiteralChars(l.literal)
  }

  /** A leaf written out with the white space `w1` and `w2` around its operator. */
  function LeafText(l: Leaf, w1: string, w2: string): string {
    l.field + w1 + OpText(l.op) + w2 + l.literal
  }

  /** `s` without its leading white space. */
  function SkipSpaces(s: string): (r: string)
    ensures |r| <= |s| && s == s[..|s| - |r|] + r && AllSpaces(s[..|s| - |r|])
    ensures r != [] ==> !IsSpace(r[0])
  {
    var n := SpaceLen(s);
    assert s == s[..n] + s[n..];
    s[n..]
  }

  /** A text is its leading white space followed by the rest. */
  lemma SkipSpacesSplit(s: string) returns (w: string)
    ensures AllSpaces(w) && s == w + SkipSpaces(s)
  {
    w := s[..|s| - |SkipSpaces(s)|];
  }

  /** White space followed by something that does not start with white space is skipped exactly. */
  lemma SkipSpacesOf(w: string, rest: string)
    requires AllSpaces(w) && (rest != [] ==> !IsSpace(rest[0]))
    ensures SkipSpaces(w + rest) == rest
  {
    SpaceLenOf(w, rest);
    assert (w + rest)[|w|..] == rest;
  }

  /** The last capture: a non-empty run of `[-\w\.]` reaching the end of the text. */
  function ParseLiteral(field: string, op: Op, literal: string): Option<Leaf> {
    if literal != [] && AllLiteralChars(literal) then Some(Leaf(field, op, literal)) else None
  }

  /** The operator, the white space after it, and the literal. */
  function ParseOperator(field: string, r: string): Option<Leaf> {
    match OpAt(r)
    case None => None
    case Some(op) => ParseLiteral(field, op, SkipSpaces(r[|OpText(op)|..]))
  }

  /** The match of the leaf pattern against the whole of `e`, if any. */
  function ParseLeaf(e: string): Option<Leaf> {
    var f := FieldLen(e);
    if f == 0 then None else ParseOperator(e[..f], SkipSpaces(e[f..]))
  }

  /** The operator found at the start of `s` is a prefix of it. */
  lemma OpAtSplit(s: string)
    requires OpAt(s).Some?
    ensures s == OpText(OpAt(s).value) + s[|OpText(OpAt(s).value)|..]
  {
    var t := OpText(OpAt(s).value);
    assert s == s[..|t|] + s[|t|..];
  }

  lemma Reassociate(a: string, b: string, c: string, d: string, e: string)
    ensures a + (b + (c + (d + e))) == a + b + c + d + e
  {
  }

  /** The pieces of a parse, laid end to end, give back the text. */
  lemma Assemble(e: string, f: nat, w1: string, r2: string, op: string, w2: string, literal: string)
    requires f <= |e| && e[f..] == w1 + r2 && r2 == op + (w2 + literal)
    ensures e == e[..f] + w1 + op + w2 + literal
  {
    assert e == e[..f] + e[f..];
  }

  /** The operator stage of a parse: white space, then the literal. */
  lemma ParseOperatorSound(field: string, r: string) returns (w2: string)
    requires ParseOperator(field, r).Some?
    ensures var l := ParseOperator(field, r).value;
            l.field == field && AllLiteralChars(l.literal) && l.literal != [] &&
            AllSpaces(w2) && r == OpText(l.op) + (w2 + l.literal)
  {
    var l := ParseOperator(field, r).value;
    OpAtSplit(r);
    var r3 := r[|OpText(l.op)|..];
    w2 := r3[..|r3| - |l.literal|];
  }

  /** Every parse is a well-formed leaf that spells out `e` exactly. */
  lemma ParseLeafSound(e: string) returns (w1: string, w2: string)
    requires ParseLeaf(e).Some?
    ensures WellFormed(ParseLeaf(e).value)
    ensures AllSpaces(w1) && AllSpaces(w2) && e == LeafText(ParseLeaf(e).value, w1, w2)
  {
    var l := ParseLeaf(e).value;
    var f := FieldLen(e);
    var r1 := e[f..];
    var r2 := SkipSpaces(r1);
    assert ParseLeaf(e) == ParseOperator(e[..f], r2);
    w1 := SkipSpacesSplit(r1);
    w2 := ParseOperatorSound(e[..f], r2);
    Assemble(e, f, w1, r2, OpText(l.op), w2, l.literal);
  }

  /** The operator text followed by white space or a literal is read as that operator. */
  lemma OpAtText(op: Op, rest: string)
    requires rest != [] && (IsSpace(rest[0]) || IsLiteralChar(rest[0]))
    ensures OpAt(OpText(op) + rest) == Some(op)
  {
    var s := OpText(op) + rest;
    assert s[0] == OpText(op)[0];
    assert |OpText(op)| == 2 ==> s[1] == OpText(op)[1];
    assert s[|OpText(op)|] == rest[0];
  }

  lemma ParseOperatorComplete(l: Leaf, w2: string)
    requires WellFormed(l) && AllSpaces(w2)
    ensures ParseOperator(l.field, OpText(l.op) + (w2 + l.literal)) == Some(l)
  {
    var r3 := w2 + l.literal;
    assert r3[0] == (if w2 == [] then l.literal[0] else w2[0]);
    OpAtText(l.op, r3);
    assert (OpText(l.op) + r3)[|OpText(l.op)|..] == r3;
    SkipSpacesOf(w2, l.literal);
  }

  /** Every well-formed leaf, with any white space around its operator, parses back to itself. */
  lemma {:induction false} ParseLeafComplete(l: Leaf, w1: string, w2: string)
    requires WellFormed(l) && AllSpaces(w1) && AllSpaces(w2)
    ensures ParseLeaf(LeafText(l, w1, w2)) == Some(l)
  {
    var e := LeafText(l, w1, w2);
    var op := OpText(l.op);
    var r2 := op + (w2 + l.literal);
    var r1 := w1 + r2;
    Reassociate(l.field, w1, op, w2, l.literal);
    assert e == l.field + r1;
    assert r1[0] == (if w1 == [] then op[0] else w1[0]);
    FieldLenOf(l.field, r1);
    assert e[..|l.field|] == l.field && e[|l.field|..] == r1;
    SkipSpacesOf(w1, r2);
    ParseOperatorComplete(l, w2);
  }

  // ----- Expressions -----

  /** A leaf: the field, then a number or, for a non-numeric literal, another field, compared. */
  function LeafValue(l: Leaf, sc: Scope, textToNumber: string -> Number): bool {
    var contextVal := GetByPath(sc, l.field);
    var targetVal := match textToNumber(l.literal)
      case NaN => GetByPath(sc, l.literal)
      case Finite(x) => Num(x);
    Compare(contextVal, OpText(l.op), targetVal, textToNumber)
  }

  /** A text that does not match the leaf pattern is false. */
  predicate LeafHolds(e: string, sc: Scope, textToNumber: string -> Number) {
    match ParseLeaf(e)
    case None => false
    case Some(l) => LeafValue(l, sc, textToNumber)
  }

  /**
   * `evaluateExpression(expr, context)`, with `leaf` reading a text that has
   * neither separator: OR first, then AND, each piece trimmed and evaluated
   * again in turn.
   */
  function Evaluate(e: string, leaf: string -> bool): bool
    decreases |e|
  {
    if Contains(e, " OR ") then
      var parts := Split(e, " OR ");
      exists i :: 0 <= i < |parts| && Evaluate(Trim(parts[i]), leaf)
    else if Contains(e, " AND ") then
      var parts := Split(e, " AND ");
      forall i :: 0 <= i < |parts| ==> Evaluate(Trim(parts[i]), leaf)
    else leaf(e)
  }

  /** The leaves as read against one context. */
  function LeafOf(sc: Scope, textToNumber: string -> Number): string -> bool {
    e => LeafHolds(e, sc, textToNumber)
  }

  /** A rule's `if`: an expression string, a `{ field, op, value }` object, or neither (never matches). */
  predicate Holds(cond: Cond, sc: Scope, textToNumber: string -> Number) {
    match cond
    case Expr(text) => Evaluate(text, LeafOf(sc, textToNumber))
    case Structured(field, op, value) => Compare(GetByPath(sc, field), op, value, textToNumber)
    case NoCond => false
  }

  /** Trimming a part of a split leaves it free of the separator. */
  lemma TrimmedPartsFree(e: string, sep: string)
    requires |sep| > 0
    ensures forall i :: 0 <= i < |Split(e, sep)| ==> !Contains(Trim(Split(e, sep)[i]), sep)
  {
    var parts := Split(e, sep);
    forall i | 0 <= i < |parts| ensures !Contains(Trim(parts[i]), sep) {
      assert parts[i] in parts;
      if Contains(Trim(parts[i]), sep) {
        ContainsTrim(parts[i], sep);
      }
    }
  }

  /** The trimmed pieces of `e` between occurrences of `sep`; `e` itself when `sep` does not occur. */
  function Pieces(e: string, sep: string): (r: seq<string>)
    requires |sep| > 0
    ensures |r| >= 1
    ensures forall i :: 0 <= i < |r| ==> !Contains(r[i], sep)
  {
    if Contains(e, sep) then
      var parts := Split(e, sep);
      TrimmedPartsFree(e, sep);
      seq(|parts|, i requires 0 <= i < |parts| => Trim(parts[i]))
    else [e]
  }

  /** A piece never contains a word that its whole did not. */
  lemma PiecesKeepAbsence(e: string, sep: string, w: string)
    requires |sep| > 0 && !Contains(e, w)
    ensures forall i :: 0 <= i < |Pieces(e, sep)| ==> !Contains(Pieces(e, sep)[i], w)
  {
    if Contains(e, sep) {
      var parts := Split(e, sep);
      forall i | 0 <= i < |parts| ensures !Contains(Pieces(e, sep)[i], w) {
        if Contains(Trim(parts[i]), w) {
          ContainsTrim(parts[i], w);
          ContainsInSplit(e, sep, i, w);
        }
      }
    }
  }

  /** Every piece between the ANDs of `d` is a leaf that holds. */
  predicate AllLeavesHold(d: string, leaf: string -> bool) {
    forall j :: 0 <= j < |Pieces(d, " AND ")| ==> leaf(Pieces(d, " AND ")[j])
  }

  /** Without " OR ", an expression holds iff every one of its AND pieces is a leaf that holds. */
  lemma Conjunction(d: string, leaf: string -> bool)
    requires !Contains(d, " OR ")
    ensures Evaluate(d, leaf) <==> AllLeavesHold(d, leaf)
  {
    if Contains(d, " AND ") {
      ConjunctionOfPieces(d, leaf);
    } else {
      assert Pieces(d, " AND ") == [d];
      assert Evaluate(d, leaf) == leaf(d);
      assert AllLeavesHold(d, leaf) == leaf(Pieces(d, " AND ")[0]);
    }
  }

  /** With " AND " and no " OR ", the expression holds iff every AND piece, a leaf, holds. */
  lemma ConjunctionOfPieces(d: string, leaf: string -> bool)
    requires !Contains(d, " OR ") && Contains(d, " AND ")
    ensures Evaluate(d, leaf) <==> AllLeavesHold(d, leaf)
  {
    var ps := Pieces(d, " AND ");
    PiecesKeepAbsence(d, " AND ", " OR ");
    var parts := Split(d, " AND ");
    forall j | 0 <= j < |ps| ensures Evaluate(Trim(parts[j]), leaf) == leaf(ps[j]) {
      assert ps[j] == Trim(parts[j]);
      assert !Contains(ps[j], " OR ") && !Contains(ps[j], " AND ");
    }
  }

  /**
   * " OR " binds loosest: an expression holds iff, for some piece between
   * its ORs, every piece between that piece's ANDs is a leaf that holds. So
   * "A AND B OR C" reads as (A AND B) OR C.
   */
  lemma Precedence(e: string, leaf: string -> bool)
    ensures Evaluate(e, leaf) <==> exists i :: 0 <= i < |Pieces(e, " OR ")| && AllLeavesHold(Pieces(e, " OR ")[i], leaf)
  {
    var ds := Pieces(e, " OR ");
    if Contains(e, " OR ") {
      Disjunction(e, leaf);
    } else {
      assert ds == [e];
      Conjunction(e, leaf);
      assert (exists i :: 0 <= i < |ds| && AllLeavesHold(ds[i], leaf)) == AllLeavesHold(ds[0], leaf);
    }
  }

  /** With an " OR ", the expression holds iff some OR piece has all its AND leaves holding. */
  lemma Disjunction(e: string, leaf: string -> bool)
    requires Contains(e, " OR ")
    ensures Evaluate(e, leaf) <==> exists i :: 0 <= i < |Pieces(e, " OR ")| && AllLeavesHold(Pieces(e, " OR ")[i], leaf)
  {
    var ds := Pieces(e, " OR ");
    var parts := Split(e, " OR ");
    forall i | 0 <= i < |ds| ensures Evaluate(Trim(parts[i]), leaf) <==> AllLeavesHold(ds[i], leaf) {
      assert ds[i] == Trim(parts[i]);
      Conjunction(ds[i], leaf);
    }
  }

  /** A single leaf whose field is undefined fails, whatever the operator and literal. */
  lemma UndefinedFieldFails(e: string, sc: Scope, textToNumber: string -> Number)
    requires !Contains(e, " OR ") && !Contains(e, " AND ")
    requires ParseLeaf(e).Some? && GetByPath(sc, ParseLeaf(e).value.field) == Undef
    ensures !Holds(Expr(e), sc, textToNumber)
  {
  }

  // ----- Rules and the default path -----

  /** `node.rules || params.rules || conditions mapped to rules || []`. */
  function RuleList(node: Node): (rules: seq<Rule>)
    ensures node.flat.rules.Some? ==> rules == node.flat.rules.value
    ensures node.flat.rules.None? && ParamsOrEmpty(node).rules.Some? ==> rules == ParamsOrEmpty(node).rules.value
    ensures node.flat.rules.None? && ParamsOrEmpty(node).rules.None? ==>
              var conds := ParamsOrEmpty(node).conditions.GetOr([]);
              |rules| == |conds| &&
              forall i :: 0 <= i < |conds| ==>
                rules[i] == Rule(Structured(conds[i].field, conds[i].op, conds[i].value), conds[i].next)
  {
    var params := ParamsOrEmpty(node);
    if node.flat.rules.Some? then node.flat.rules.value
    else if params.rules.Some? then params.rules.value
    else
      var conds := params.conditions.GetOr([]);
      seq(|conds|, i requires 0 <= i < |conds| => Rule(Structured(conds[i].field, conds[i].op, conds[i].value), conds[i].next))
  }

  /** How a rule's condition reads against one context. */
  function HoldsIn(sc: Scope, textToNumber: string -> Number): Cond -> bool {
    cond => Holds(cond, sc, textToNumber)
  }

  /** The verdict of every rule's condition, in order. */
  function Verdicts(rules: seq<Rule>, holds: Cond -> bool): (v: seq<bool>)
    ensures |v| == |rules| && forall i :: 0 <= i < |rules| ==> v[i] == holds(rules[i].cond)
  {
    seq(|rules|, i requires 0 <= i < |rules| => holds(rules[i].cond))
  }

  /** The index of the first true entry. */
  function FirstTrue(v: seq<bool>): (r: Option<nat>)
    ensures r.Some? ==> r.value < |v| && v[r.value] && forall j :: 0 <= j < r.value ==> !v[j]
    ensures r.None? <==> forall j :: 0 <= j < |v| ==> !v[j]
  {
    if v == [] then None
    else if v[0] then Some(0)
    else
      match FirstTrue(v[1..])
      case None => None
      case Some(k) => Some(k + 1)
  }

  /** `node.default_next || params.default_next`; an empty id is falsy. */
  function DefaultOf(node: Node): DefaultNext {
    if node.flat.defaultNext != NoDefault && node.flat.defaultNext != DefaultTo("") then node.flat.defaultNext
    else ParamsOrEmpty(node).defaultNext
  }

  /** The transition when no rule matches. */
  function Fallback(d: DefaultNext): (t: Transition)
    ensures t.Success? <==> d.DefaultTo? && d.id != ""
    ensures d.TerminateDefault? ==> t == Terminate(d.reason)
    ensures d == NoDefault || d == DefaultTo("") ==> t == Terminate(NoMatchReason)
  {
    match d
    case TerminateDefault(reason) => Terminate(reason)
    case DefaultTo(id) => if id != "" then Success(id) else Terminate(NoMatchReason)
    case NoDefault => Terminate(NoMatchReason)
  }

  /** The branch decision, with `holds` reading each rule's condition. */
  function Decide(node: Node, holds: Cond -> bool): Transition {
    var rules := RuleList(node);
    match FirstTrue(Verdicts(rules, holds))
    case Some(i) => Success(rules[i].next)
    case None => Fallback(DefaultOf(node))
  }

  /**
   * The first rule that holds decides `next`, whatever the rules after it
   * say; only when none holds does the default path, or a terminate, apply.
   */
  lemma DecideFirstMatch(node: Node, holds: Cond -> bool, i: nat)
    requires i < |RuleList(node)| && holds(RuleList(node)[i].cond)
    requires forall j :: 0 <= j < i ==> !holds(RuleList(node)[j].cond)
    ensures Decide(node, holds) == Success(RuleList(node)[i].next)
  {
    var v := Verdicts(RuleList(node), holds);
    var k := FirstTrue(v).value;
    assert !(k < i) && !(i < k);
  }

  lemma DecideNoMatch(node: Node, holds: Cond -> bool)
    requires forall j :: 0 <= j < |RuleList(node)| ==> !holds(RuleList(node)[j].cond)
    ensures Decide(node, holds) == Fallback(DefaultOf(node))
  {
    var v := Verdicts(RuleList(node), holds);
    assert forall j :: 0 <= j < |v| ==> !v[j];
  }

  /** The branch node never throws and never writes to the context. */
  function Step(node: Node, s: Ctx, env: Env): Outcome {
    Outcome(Ok(Decide(node, HoldsIn(ScopeOf(s), env.textToNumber))), s)
  }

  /** The `for (const rule of ruleList)` loop: the index of the first rule whose condition holds. */
  method FirstMatch(ruleList: seq<Rule>, holds: Cond -> bool) returns (found: Option<nat>)
    ensures found == FirstTrue(Verdicts(ruleList, holds))
  {
    ghost var verdicts := Verdicts(ruleList, holds);
    var i := 0;
    while i < |ruleList|
      invariant 0 <= i <= |ruleList|
      invariant forall j :: 0 <= j < i ==> !verdicts[j]
    {
      var matched := holds(ruleList[i].cond);
      if matched {
        assert FirstTrue(verdicts) == Some(i);
        return Some(i);
      }
      i := i + 1;
    }
    return None;
  }

  /** `execute(node, context)`: the search loop with its early return, then the default path. */
  method Execute(node: Node, c: ExecutionContext, env: Env) returns (r: Result<Transition>)
    ensures r == Step(node, c.State(), env).result
  {
    var ruleList := RuleList(node);
    var found := FirstMatch(ruleList, HoldsIn(ScopeOf(c.State()), env.textToNumber));
    if found.Some? {
      return Ok(Success(ruleList[found.value].next));
    }
    var defaultNext := DefaultOf(node);
    if defaultNext != NoDefault && defaultNext != DefaultTo("") {
      if defaultNext.TerminateDefault? {
        return Ok(Terminate(defaultNext.reason));
      }
      return Ok(Success(defaultNext.id));
    }
    return Ok(Terminate(NoMatchReason));
  }
}
