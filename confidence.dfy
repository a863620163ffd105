/**
 * The confidence node of src/nodes/confidence.js: an additive score from a
 * base of 0.5, adjusted by the strength and clarity of the root causes and
 * by the current order volume, clamped to [0.1, 0.99] and stored with two
 * decimals. Scores are kept exactly, in integer hundredths: every
 * adjustment is a multiple of 0.05, so rounding to two decimals recovers
 * the exact sum.
 */
module ConfidenceNode {
  import opened Wrappers
  import opened Js
  import opened Dsl
  import opened Context
  import opened Analysis
  import opened Runtime

  /** The base score, 0.5. */
  const Base: int := 50

  /** The top-impact bonus: +0.3 above 50, +0.15 above 20, nothing otherwise. */
  function TopBonus(topImpact: real): int {
    if topImpact > 50.0 then 30 else if topImpact > 20.0 then 15 else 0
  }

  /** One cause only, or a top cause more than twice the second. */
  predicate Clear(causes: seq<Finding>)
    requires causes != []
  {
    |causes| == 1 || causes[0].impact > causes[1].impact * 2.0
  }

  /** `context.derived?.funnel?.orders?.current || 0`. */
  function CurrentOrders(derived: map<string, Value>): Value {
    var v := Get(Get(Get(Obj(derived), "funnel"), "orders"), "current");
    if Truthy(v) then v else Num(0.0)
  }

  /** `orders < 50`; a value that is not a number compares false. */
  predicate LowVolume(derived: map<string, Value>, textToNumber: string -> Number) {
    match ToNumber(CurrentOrders(derived), textToNumber)
    case Finite(x) => x < 50.0
    case NaN => false
  }

  /** The score before the clamp, in hundredths. */
  function Score(causes: seq<Finding>, derived: map<string, Value>, textToNumber: string -> Number): int {
    var evidence := if causes != [] then TopBonus(causes[0].impact) + (if Clear(causes) then 10 else 0) else -20;
    Base + evidence + (if LowVolume(derived, textToNumber) then -10 else 0)
  }

  /** `Math.min(Math.max(score, 0.1), 0.99)`, in hundredths. */
  function Clamp(score: int): (r: int)
    ensures 10 <= r <= 99
    ensures 10 <= score <= 99 ==> r == score
  {
    if score < 10 then 10 else if score > 99 then 99 else score
  }

  /** The score before the clamp lies between 0.2 and 0.9, so the clamp never changes it. */
  lemma ScoreRange(causes: seq<Finding>, derived: map<string, Value>, textToNumber: string -> Number)
    ensures 20 <= Score(causes, derived, textToNumber) <= 90
    ensures Clamp(Score(causes, derived, textToNumber)) == Score(causes, derived, textToNumber)
  {
  }

  /** Without causes the score is 0.3, or 0.2 at low volume; missing order data counts as low volume. */
  lemma NoCausesScore(derived: map<string, Value>, textToNumber: string -> Number)
    ensures Score([], derived, textToNumber) == (if LowVolume(derived, textToNumber) then 20 else 30)
    ensures "funnel" !in derived ==> Score([], derived, textToNumber) == 20
  {
  }

  /** The clarity bonus is paid exactly for a single cause or a top cause above twice the second. */
  lemma ClarityBonus(causes: seq<Finding>, derived: map<string, Value>, textToNumber: string -> Number)
    requires causes != []
    ensures Score(causes, derived, textToNumber) - TopBonus(causes[0].impact)
            - (if LowVolume(derived, textToNumber) then -10 else 0) - Base
            == (if |causes| == 1 || causes[0].impact > 2.0 * causes[1].impact then 10 else 0)
  {
  }

  /** The effect of the node on a context value. */
  function Step(node: Node, s: Ctx, env: Env): Outcome {
    var score := Score(s.analysis.rootCauses.GetOr([]), s.derived, env.textToNumber);
    Outcome(Ok(Success(node.next)), s.(analysis := s.analysis.(confidence := Some(Clamp(score)))))
  }

  /** Only the confidence is written, it lies in [0.2, 0.9], and the node moves on to `node.next`. */
  lemma StepSound(node: Node, s: Ctx, env: Env)
    ensures Step(node, s, env).result == Ok(Success(node.next))
    ensures Step(node, s, env).ctx == s.(analysis := s.analysis.(confidence := Step(node, s, env).ctx.analysis.confidence))
    ensures var c := Step(node, s, env).ctx.analysis.confidence;
            c.Some? && 20 <= c.value <= 90
  {
    ScoreRange(s.analysis.rootCauses.GetOr([]), s.derived, env.textToNumber);
  }

  /** `execute(node, context)`: the score built up step by step, then stored. */
  method Execute(node: Node, c: ExecutionContext, env: Env) returns (r: Result<Transition>)
    modifies c
    ensures r == Step(node, old(c.State()), env).result
    ensures c.State() == Step(node, old(c.State()), env).ctx
  {
    var score := Base;
    var causes := c.analysis.rootCauses.GetOr([]);
    if |causes| > 0 {
      var topCause := causes[0];
      if topCause.impact > 50.0 {
        score := score + 30;
      } else if topCause.impact > 20.0 {
        score := score + 15;
      }
      if |causes| == 1 {
        score := score + 10;
      } else if topCause.impact > causes[1].impact * 2.0 {
        score := score + 10;
      }
    } else {
      score := score - 20;
    }
    if LowVolume(c.derived, env.textToNumber) {
      score := score - 10;
    }
    score := if score < 10 then 10 else score;
    score := if score > 99 then 99 else score;
    c.analysis := c.analysis.(confidence := Some(score));
    return Ok(Success(node.next));
  }
}
