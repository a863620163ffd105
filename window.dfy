/**
 * The window resolver of src/core/utils.js: a symbolic window token and a
 * reference instant become a concrete `[start, end)` pair of instants.
 *
 * Instants are integer milliseconds; a day is 24 hours (local-time and
 * daylight-saving effects of `setDate`/`setHours` are not modelled). Parsing an
 * ISO instant is the collaborator `iso` (`Date.parse`), None meaning NaN.
 */
module Window {
  import opened Wrappers
  import opened Strings

  const MinuteMs: int := 60_000
  const HourMs: int := 3_600_000
  const DayMs: int := 86_400_000

  /** A JavaScript Date: a valid instant in milliseconds, or an Invalid Date. */
  datatype Instant = At(ms: int) | Invalid

  /** Moving a Date by `d` milliseconds; an Invalid Date stays invalid. */
  function Shift(t: Instant, d: int): Instant {
    match t
    case At(ms) => At(ms + d)
    case Invalid => Invalid
  }

  /** `new Date(text)`. */
  function DateOf(text: string, iso: string -> Option<int>): Instant {
    match iso(text)
    case Some(ms) => At(ms)
    case None => Invalid
  }

  /** Length of the run of decimal digits at the start of `s`. */
  function DigitRun(s: string): (k: nat)
    ensures k <= |s|
    ensures forall i :: 0 <= i < k ==> IsDigit(s[i])
    ensures k < |s| ==> !IsDigit(s[k])
  {
    if s != [] && IsDigit(s[0]) then 1 + DigitRun(s[1..]) else 0
  }

  /** Does `/prev_(\d+)_days/` match at index `i` of `s`, and with which number? */
  function MatchDaysAt(s: string, i: nat): Option<nat>
    requires i <= |s|
  {
    var t := s[i..];
    if StartsWith(t, "prev_") then
      var k := DigitRun(t[5..]);
      if k > 0 && StartsWith(t[5 + k..], "_days") then Some(DigitsValue(t[5..5 + k])) else None
    else None
  }

  /** The leftmost match of `/prev_(\d+)_days/` at or after index `i`. */
  function DaysFrom(s: string, i: nat): Option<nat>
    requires i <= |s|
    decreases |s| - i
  {
    match MatchDaysAt(s, i)
    case Some(n) => Some(n)
    case None => if i == |s| then None else DaysFrom(s, i + 1)
  }

  /** The number of days a token such as "avg_prev_3_days_same_hour" names, if any. */
  function DaysIn(token: string): Option<nat> {
    DaysFrom(token, 0)
  }

  /**
   * `parseWindow(windowDef, referenceTime)`. The three token shapes are tried
   * in this order: anything containing "avg_prev_", anything containing '|',
   * then a bare ISO instant; any other token is an error.
   */
  function ParseWindow(token: string, reference: Instant, iso: string -> Option<int>): (r: Result<(Instant, Instant)>)
    ensures r.Err? <==> !Contains(token, "avg_prev_") && !Contains(token, "|") && iso(token).None?
    ensures r.Err? ==> r.message == "Unknown window definition: " + token
  {
    if Contains(token, "avg_prev_") then
      var days: int := DaysIn(token).GetOr(1);
      var start := Shift(reference, -days * DayMs);
      Ok((start, Shift(start, HourMs)))
    else if Contains(token, "|") then
      var parts := Split(token, "|");
      Ok((DateOf(parts[0], iso), DateOf(parts[1], iso)))
    else
      match iso(token)
      case Some(ms) => Ok((At(ms), At(ms + HourMs)))
      case None => Err("Unknown window definition: " + token)
  }

  /** A digit run followed by a non-digit is read in full. */
  lemma DigitRunOf(d: string, rest: string)
    requires forall i :: 0 <= i < |d| ==> IsDigit(d[i])
    requires rest == [] || !IsDigit(rest[0])
    ensures DigitRun(d + rest) == |d|
    decreases |d|
  {
    if d != [] {
      assert (d + rest)[1..] == d[1..] + rest;
      DigitRunOf(d[1..], rest);
    } else {
      assert d + rest == rest;
    }
  }

  /** A position whose character is not 'p' cannot start a match. */
  lemma NoDaysMatchAt(s: string, i: nat)
    requires i < |s| && s[i] != 'p'
    ensures MatchDaysAt(s, i) == None
  {
    assert s[i..][0] == s[i];
  }

  /** A token that starts with "prev_N_days" matches at its start, with N. */
  lemma DaysMatchAtStart(n: nat, suffix: string)
    ensures MatchDaysAt("prev_" + NatText(n) + "_days" + suffix, 0) == Some(n)
  {
    var d := NatText(n);
    var t := "prev_" + d + "_days" + suffix;
    assert t[0..] == t;
    assert t[..5] == "prev_";
    assert t[5..] == d + ("_days" + suffix);
    DigitRunOf(d, "_days" + suffix);
    assert t[5 + |d|..] == "_days" + suffix;
    assert t[5..5 + |d|] == d;
    DigitsValueNatText(n);
  }

  /** The number in "avg_prev_N_days…" is the N the regular expression captures. */
  lemma DaysInAvgPrev(n: nat, suffix: string)
    ensures DaysIn("avg_prev_" + NatText(n) + "_days" + suffix) == Some(n)
  {
    var t := "prev_" + NatText(n) + "_days" + suffix;
    var s := "avg_" + t;
    assert s == "avg_prev_" + NatText(n) + "_days" + suffix;
    assert s[4..] == t;
    DaysMatchAtStart(n, suffix);
    assert MatchDaysAt(s, 4) == Some(n);
    assert s[0] == 'a' && s[1] == 'v' && s[2] == 'g' && s[3] == '_';
    assert DaysFrom(s, 4) == Some(n);
    NoDaysMatchAt(s, 3);
    assert DaysFrom(s, 3) == Some(n);
    NoDaysMatchAt(s, 2);
    assert DaysFrom(s, 2) == Some(n);
    NoDaysMatchAt(s, 1);
    assert DaysFrom(s, 1) == Some(n);
    NoDaysMatchAt(s, 0);
  }

  /**
   * "avg_prev_N_days…" resolves to the one-hour window that starts N days before
   * the reference; for N >= 1 it ends before the reference, so it is not a
   * range ending at the reference.
   */
  lemma AvgPrevWindow(n: nat, suffix: string, reference: int, iso: string -> Option<int>)
    ensures ParseWindow("avg_prev_" + NatText(n) + "_days" + suffix, At(reference), iso)
         == Ok((At(reference - n * DayMs), At(reference - n * DayMs + HourMs)))
    ensures n >= 1 ==> reference - n * DayMs + HourMs < reference
  {
    var s := "avg_prev_" + NatText(n) + "_days" + suffix;
    assert s[..9] == "avg_prev_";
    assert OccursAt(s, "avg_prev_", 0);
    DaysInAvgPrev(n, suffix);
  }

  /** An "avg_prev_" token without a "prev_N_days" part falls back to one day. */
  lemma AvgPrevDefaultsToOneDay(token: string, reference: Instant, iso: string -> Option<int>)
    requires Contains(token, "avg_prev_") && DaysIn(token).None?
    ensures ParseWindow(token, reference, iso) == Ok((Shift(reference, -DayMs), Shift(reference, HourMs - DayMs)))
  {
    match reference
    case At(ms) =>
    case Invalid =>
  }

  /** "a|b" yields exactly the two instants a and b, whatever the reference. */
  lemma PairWindow(a: string, b: string, reference: Instant, iso: string -> Option<int>)
    requires !Contains(a, "|") && !Contains(b, "|")
    requires !Contains(a + "|" + b, "avg_prev_")
    ensures ParseWindow(a + "|" + b, reference, iso) == Ok((DateOf(a, iso), DateOf(b, iso)))
  {
    SplitAfter(a, "|", b);
  }

  /**
   * Round trip: rendering two instants with a formatter that `iso` reads back
   * and joining them with '|' resolves to those two instants.
   */
  lemma PairRoundTrip(x: int, y: int, format: int -> string, iso: string -> Option<int>, reference: Instant)
    requires iso(format(x)) == Some(x) && iso(format(y)) == Some(y)
    requires !Contains(format(x), "|") && !Contains(format(y), "|")
    requires !Contains(format(x) + "|" + format(y), "avg_prev_")
    ensures ParseWindow(format(x) + "|" + format(y), reference, iso) == Ok((At(x), At(y)))
  {
    PairWindow(format(x), format(y), reference, iso);
  }

  /** A bare ISO instant t yields the one-hour window [t, t + 1 hour). */
  lemma InstantWindow(token: string, t: int, reference: Instant, iso: string -> Option<int>)
    requires !Contains(token, "avg_prev_") && !Contains(token, "|") && iso(token) == Some(t)
    ensures ParseWindow(token, reference, iso) == Ok((At(t), At(t + HourMs)))
  {
  }
}
