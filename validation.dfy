/**
 * The validation gate of src/nodes/validation.js: a current window that
 * ends in the future and lasts under 30 minutes defers the run; a drop below
 * the node's minimum suppresses it; otherwise the run moves on to `next`.
 * The node reads the alert only and writes nothing.
 */
module ValidationNode {
  import opened Wrappers
  import opened Window
  import opened Dsl
  import opened Context

  /** `node.min_drop_pct !== undefined ? node.min_drop_pct : params.min_drop_pct`. */
  function MinDropPct(node: Node): Option<real> {
    if node.flat.minDropPct.Some? then node.flat.minDropPct else ParamsOrEmpty(node).minDropPct
  }

  /** `cEnd > now` and `(cEnd - cStart) / 60000 < 30`; comparisons with an Invalid Date are false. */
  predicate TooShort(w: (Instant, Instant), now: int) {
    w.1.At? && w.1.ms > now && w.0.At? && w.1.ms - w.0.ms < 30 * MinuteMs
  }

  /** `drop_pct < min_drop_pct`; a missing drop compares false. */
  predicate BelowThreshold(alert: Alert, minDrop: Option<real>) {
    minDrop.Some? && alert.dropPct.Some? && alert.dropPct.value < minDrop.value
  }

  function Execute(node: Node, alert: Alert, now: int, iso: string -> Option<int>): (r: Result<Transition>)
    ensures CurrentWindowOnly(alert, now, iso).Err? ==> r == Err(CurrentWindowOnly(alert, now, iso).message)
    ensures CurrentWindowOnly(alert, now, iso).Ok? ==>
              var w := CurrentWindowOnly(alert, now, iso).value;
              (r == Ok(Deferred("window_too_short")) <==> TooShort(w, now)) &&
              (r == Ok(Suppressed("below_threshold")) <==> !TooShort(w, now) && BelowThreshold(alert, MinDropPct(node))) &&
              (r == Ok(Success(node.next)) <==> !TooShort(w, now) && !BelowThreshold(alert, MinDropPct(node)))
  {
    match CurrentWindowOnly(alert, now, iso)
    case Err(m) => Err(m)
    case Ok(w) =>
      if TooShort(w, now) then Ok(Deferred("window_too_short"))
      else if BelowThreshold(alert, MinDropPct(node)) then Ok(Suppressed("below_threshold"))
      else Ok(Success(node.next))
  }

  /** Without a current window the node checks the hour from now, which is never too short. */
  lemma NoWindowNeverDefers(node: Node, alert: Alert, now: int, iso: string -> Option<int>)
    requires alert.currentWindow == ""
    ensures Execute(node, alert, now, iso).Ok?
    ensures Execute(node, alert, now, iso) != Ok(Deferred("window_too_short"))
  {
    assert CurrentWindowOnly(alert, now, iso) == Ok((At(now), At(now + HourMs)));
  }

  /** A too-short window defers whatever the threshold says: the window check comes first. */
  lemma WindowCheckFirst(node: Node, alert: Alert, now: int, iso: string -> Option<int>, minDrop: real)
    requires CurrentWindowOnly(alert, now, iso).Ok? && TooShort(CurrentWindowOnly(alert, now, iso).value, now)
    ensures Execute(node.(flat := node.flat.(minDropPct := Some(minDrop))), alert, now, iso) == Ok(Deferred("window_too_short"))
  {
  }

  /** The node-level minimum wins over the one under `params`. */
  lemma FlatThresholdWins(node: Node, a: real, b: real)
    requires node.flat.minDropPct == Some(a) && node.params.Some? && node.params.value.minDropPct == Some(b)
    ensures MinDropPct(node) == Some(a)
  {
  }
}
