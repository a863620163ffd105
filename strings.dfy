/**
 * The handful of JavaScript string operations the engine relies on:
 * `indexOf`/`includes`, `split` on a non-empty separator, `join`, `trim`,
 * and the character classes `\s`, `\w` and `\d` of non-Unicode regular expressions.
 */
module Strings {
  import opened Wrappers

  /** `p` occurs in `s` starting at index `j`. */
  predicate OccursAt(s: string, p: string, j: int) {
    0 <= j && j + |p| <= |s| && s[j..j + |p|] == p
  }

  /** First index at which `p` occurs in `s` (String.prototype.indexOf). */
  function IndexOf(s: string, p: string): (r: Option<nat>)
    ensures r.Some? ==> OccursAt(s, p, r.value)
    ensures r.Some? ==> forall j :: 0 <= j < r.value ==> !OccursAt(s, p, j)
    ensures r.None? ==> forall j :: !OccursAt(s, p, j)
    decreases |s|
  {
    if |s| < |p| then None
    else if s[..|p|] == p then Some(0)
    else
      var rest := IndexOf(s[1..], p);
      assert forall j :: 1 <= j ==> OccursAt(s, p, j) == OccursAt(s[1..], p, j - 1) by {
        forall j | 1 <= j ensures OccursAt(s, p, j) == OccursAt(s[1..], p, j - 1) {
          OccursShift(s, p, j);
        }
      }
      match rest
      case None => None
      case Some(i) => Some(i + 1)
  }

  lemma OccursShift(s: string, p: string, j: int)
    requires 1 <= j && s != []
    ensures OccursAt(s, p, j) == OccursAt(s[1..], p, j - 1)
  {
    if j + |p| <= |s| {
      var a := s[j..j + |p|];
      var b := s[1..][j - 1..j - 1 + |p|];
      assert |a| == |b|;
      forall k | 0 <= k < |a| ensures a[k] == b[k] {
        assert a[k] == s[j + k];
        assert b[k] == s[1..][j - 1 + k];
      }
      assert a == b;
    }
  }

  /** String.prototype.includes. */
  predicate Contains(s: string, p: string) {
    IndexOf(s, p).Some?
  }

  predicate StartsWith(s: string, p: string) {
    |p| <= |s| && s[..|p|] == p
  }

  /** An occurrence inside a prefix is an occurrence in the whole string. */
  lemma OccursInPrefix(s: string, p: string, k: nat, j: int)
    requires k <= |s| && OccursAt(s[..k], p, j)
    ensures OccursAt(s, p, j)
  {
    assert s[..k][j..j + |p|] == s[j..j + |p|];
  }

  /** `parts.join(sep)`. */
  function Join(parts: seq<string>, sep: string): string {
    if |parts| == 0 then ""
    else if |parts| == 1 then parts[0]
    else parts[0] + sep + Join(parts[1..], sep)
  }

  /**
   * `s.split(sep)` for a non-empty separator: the pieces between the
   * non-overlapping occurrences of `sep`, found left to right.
   */
  function Split(s: string, sep: string): (parts: seq<string>)
    requires |sep| > 0
    ensures |parts| >= 1
    ensures Join(parts, sep) == s
    ensures forall q :: q in parts ==> !Contains(q, sep)
    ensures forall q :: q in parts ==> |q| <= |s|
    ensures Contains(s, sep) ==> forall q :: q in parts ==> |q| < |s|
    ensures !Contains(s, sep) ==> parts == [s]
    ensures Contains(s, sep) ==> |parts| >= 2
    decreases |s|
  {
    match IndexOf(s, sep)
    case None => [s]
    case Some(i) =>
      var head := s[..i];
      assert !Contains(head, sep) by {
        forall j | OccursAt(head, sep, j) ensures OccursAt(s, sep, j) {
          OccursInPrefix(s, sep, i, j);
        }
      }
      var tail := Split(s[i + |sep|..], sep);
      assert s == head + sep + s[i + |sep|..];
      [head] + tail
  }

  /** Splitting on a one-character separator that `a` does not contain stops right after `a`. */
  lemma SplitAfter(a: string, sep: string, b: string)
    requires |sep| == 1 && !Contains(a, sep)
    ensures Split(a + sep + b, sep) == [a] + Split(b, sep)
  {
    var s := a + sep + b;
    assert OccursAt(s, sep, |a|);
    var i := IndexOf(s, sep).value;
    if i < |a| {
      assert s[i..i + 1] == a[i..i + 1];
      assert OccursAt(a, sep, i);
    }
    assert s[..|a|] == a && s[|a| + 1..] == b;
  }

  /** Whatever occurs in a slice of `s` occurs in `s`. */
  lemma ContainsInSlice(s: string, p: string, a: nat, b: nat)
    requires a <= b <= |s| && Contains(s[a..b], p)
    ensures Contains(s, p)
  {
    var j := IndexOf(s[a..b], p).value;
    assert OccursAt(s[a..b], p, j);
    forall k | 0 <= k < |p| ensures s[a + j + k] == p[k] {
      assert s[a..b][j..j + |p|][k] == p[k];
    }
    assert s[a + j..a + j + |p|] == p;
    assert OccursAt(s, p, a + j);
  }

  /** Whatever occurs in one of the parts occurs in their join. */
  lemma {:induction false} ContainsInJoin(parts: seq<string>, sep: string, i: nat, p: string)
    requires i < |parts| && Contains(parts[i], p)
    ensures Contains(Join(parts, sep), p)
  {
    var s := Join(parts, sep);
    if |parts| > 1 {
      var rest := Join(parts[1..], sep);
      assert s == parts[0] + sep + rest;
      if i == 0 {
        assert s[..|parts[0]|] == parts[0];
        ContainsInSlice(s, p, 0, |parts[0]|);
      } else {
        ContainsInJoin(parts[1..], sep, i - 1, p);
        assert s[|parts[0]| + |sep|..|s|] == rest;
        ContainsInSlice(s, p, |parts[0]| + |sep|, |s|);
      }
    }
  }

  /** Whatever occurs in a piece of `s.split(sep)` occurs in `s`. */
  lemma ContainsInSplit(s: string, sep: string, i: nat, p: string)
    requires |sep| > 0 && i < |Split(s, sep)| && Contains(Split(s, sep)[i], p)
    ensures Contains(s, p)
  {
    ContainsInJoin(Split(s, sep), sep, i, p);
  }

  /** Whatever occurs in the trimmed string occurs in the original. */
  lemma ContainsTrim(s: string, p: string)
    requires Contains(Trim(s), p)
    ensures Contains(s, p)
  {
    var t := TrimStart(s);
    var r := Trim(s);
    assert r == TrimEnd(t) && r == t[..|r|] && t == s[|s| - |t|..];
    assert r == s[|s| - |t|..|s| - |t| + |r|];
    ContainsInSlice(s, p, |s| - |t|, |s| - |t| + |r|);
  }

  /** `\s` of a JavaScript regular expression, which is also the set `trim` removes. */
  predicate IsSpace(c: char) {
    c == ' ' || c == '\t' || c == '\n' || c == '\r' || c == '\U{000B}' || c == '\U{000C}'
    || c == '\U{00A0}' || c == '\U{1680}' || ('\U{2000}' <= c <= '\U{200A}')
    || c == '\U{2028}' || c == '\U{2029}' || c == '\U{202F}' || c == '\U{205F}'
    || c == '\U{3000}' || c == '\U{FEFF}'
  }

  /** `\w` of a non-Unicode JavaScript regular expression. */
  predicate IsWordChar(c: char) {
    ('a' <= c <= 'z') || ('A' <= c <= 'Z') || ('0' <= c <= '9') || c == '_'
  }

  predicate IsDigit(c: char) {
    '0' <= c <= '9'
  }

  function TrimStart(s: string): (r: string)
    ensures |r| <= |s| && r == s[|s| - |r|..]
    ensures r != [] ==> !IsSpace(r[0])
    ensures forall k :: 0 <= k < |s| - |r| ==> IsSpace(s[k])
    decreases |s|
  {
    if s != [] && IsSpace(s[0]) then TrimStart(s[1..]) else s
  }

  function TrimEnd(s: string): (r: string)
    ensures |r| <= |s| && r == s[..|r|]
    ensures r != [] ==> !IsSpace(r[|r| - 1])
    ensures forall k :: |r| <= k < |s| ==> IsSpace(s[k])
    decreases |s|
  {
    if s != [] && IsSpace(s[|s| - 1]) then TrimEnd(s[..|s| - 1]) else s
  }

  /** String.prototype.trim. */
  function Trim(s: string): (r: string)
    ensures |r| <= |s|
    ensures r != [] ==> !IsSpace(r[0]) && !IsSpace(r[|r| - 1])
    ensures exists i, j :: 0 <= i <= j <= |s| && r == s[i..j] &&
                           (forall k :: 0 <= k < i ==> IsSpace(s[k])) &&
                           (forall k :: j <= k < |s| ==> IsSpace(s[k]))
  {
    var t := TrimStart(s);
    var r := TrimEnd(t);
    assert r != [] ==> r[0] == t[0];
    var i := |s| - |t|;
    var j := i + |r|;
    assert t == s[i..];
    assert r == t[..|r|];
    assert r == s[i..j];
    forall k | j <= k < |s|
      ensures IsSpace(s[k])
    {
      assert s[k] == t[k - i] && |r| <= k - i < |t|;
    }
    r
  }

  /** A string without surrounding white space is its own trim. */
  lemma TrimIdentity(s: string)
    requires s != [] ==> !IsSpace(s[0]) && !IsSpace(s[|s| - 1])
    ensures Trim(s) == s
  {
  }

  /** Number of occurrences of the character `c` in `s`. */
  function CountChar(s: string, c: char): nat {
    if s == [] then 0 else (if s[0] == c then 1 else 0) + CountChar(s[1..], c)
  }

  lemma {:induction false} CountCharAppend(a: string, b: string, c: char)
    ensures CountChar(a + b, c) == CountChar(a, c) + CountChar(b, c)
    decreases |a|
  {
    if a == [] {
      assert a + b == b;
    } else {
      assert (a + b)[1..] == a[1..] + b;
      CountCharAppend(a[1..], b, c);
    }
  }

  /** Value of a string of decimal digits, as `parseInt` reads it. */
  function DigitsValue(s: string): nat
    requires forall i :: 0 <= i < |s| ==> IsDigit(s[i])
  {
    assert s != [] ==> IsDigit(s[|s| - 1]);
    if s == [] then 0 else DigitsValue(s[..|s| - 1]) * 10 + (s[|s| - 1] as int - '0' as int)
  }

  /** Decimal rendering of a natural number, without leading zeros. */
  function NatText(n: nat): (r: string)
    ensures r != [] && forall i :: 0 <= i < |r| ==> IsDigit(r[i])
  {
    var d := ('0' as int + n % 10) as char;
    if n < 10 then [d] else NatText(n / 10) + [d]
  }

  /** Reading back a rendered number gives the number. */
  lemma {:induction false} DigitsValueNatText(n: nat)
    ensures DigitsValue(NatText(n)) == n
  {
    var r := NatText(n);
    if n >= 10 {
      assert r[..|r| - 1] == NatText(n / 10);
      DigitsValueNatText(n / 10);
    }
  }
}
