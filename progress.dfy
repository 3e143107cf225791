/** The arithmetic of a habit's circular progress indicator: the clamp into [0, 1], one press
    of the increment button, and the integer percentage shown on the labels. */
module Progress {

  function Min(a: real, b: real): real { if a <= b then a else b }

  function Max(a: real, b: real): real { if a <= b then b else a }

  /** `max(0.0, min(1.0, v))`: the clamp applied when the indicator is built and on every
      `set_progress`. Out-of-range values are clamped, never rejected. */
  function Clamp(v: real): (r: real)
    ensures 0.0 <= r <= 1.0
    ensures 0.0 <= v <= 1.0 ==> r == v
    ensures v < 0.0 ==> r == 0.0
    ensures v > 1.0 ==> r == 1.0
  {
    Max(0.0, Min(1.0, v))
  }

  /** The progress after one press of the increment button: `min(1.0, p + inc)`, then
      floored at 0 by `set_progress`. */
  function Advanced(p: real, inc: real): (r: real)
    ensures 0.0 <= r <= 1.0
    ensures r == 1.0 <==> p + inc >= 1.0
    ensures 0.0 <= p + inc <= 1.0 ==> r == p + inc
    ensures p + inc < 0.0 ==> r == 0.0
    ensures 0.0 <= p <= 1.0 && 0.0 <= inc ==> p <= r
  {
    Clamp(Min(1.0, p + inc))
  }

  /** The progress after `n` presses of the increment button. */
  function AdvancedTimes(p: real, inc: real, n: nat): (r: real)
    ensures 0.0 <= p <= 1.0 ==> 0.0 <= r <= 1.0
  {
    if n == 0 then p else Advanced(AdvancedTimes(p, inc, n - 1), inc)
  }

  /** `n` steps of `inc`, added one at a time. */
  function StepTotal(inc: real, n: nat): (t: real)
    ensures 0.0 <= inc ==> 0.0 <= t
  {
    if n == 0 then 0.0 else StepTotal(inc, n - 1) + inc
  }

  /** Adding `inc` one press at a time `n` times is `n * inc`. */
  lemma {:induction false} StepTotalIsProduct(inc: real, n: nat)
    ensures StepTotal(inc, n) == n as real * inc
  {
    if 0 < n {
      StepTotalIsProduct(inc, n - 1);
      assert n as real * inc == (n - 1) as real * inc + inc;
    }
  }

  /** With a non-negative step, each press adds one step until the indicator is full, and a
      full indicator stays full. */
  lemma {:induction false} AdvancedTimesSum(p: real, inc: real, n: nat)
    requires 0.0 <= p <= 1.0 && 0.0 <= inc
    ensures AdvancedTimes(p, inc, n) == Min(1.0, p + StepTotal(inc, n))
  {
    if 0 < n {
      AdvancedTimesSum(p, inc, n - 1);
    }
  }

  /** `n` presses from `p` with a non-negative step give `min(1, p + n * inc)`. */
  lemma {:induction false} AdvancedTimesClosedForm(p: real, inc: real, n: nat)
    requires 0.0 <= p <= 1.0 && 0.0 <= inc
    ensures AdvancedTimes(p, inc, n) == Min(1.0, p + n as real * inc)
  {
    AdvancedTimesSum(p, inc, n);
    StepTotalIsProduct(inc, n);
  }

  /** Python's `int(x)` on a float: truncation toward zero. */
  function Truncate(x: real): (r: int)
    ensures 0.0 <= x ==> 0 <= r && r as real <= x < r as real + 1.0
    ensures x < 0.0 ==> r <= 0 && r as real - 1.0 < x <= r as real
  {
    if 0.0 <= x then x.Floor else -((-x).Floor)
  }

  /** `int(progress * 100)`, the whole percentage shown on the labels. */
  function Percent(p: real): (r: int)
    ensures 0.0 <= p <= 1.0 ==> 0 <= r <= 100 && r as real <= p * 100.0 < r as real + 1.0
    ensures 0.0 <= p <= 1.0 ==> (r == 100 <==> p == 1.0) && (r == 0 <==> p < 0.01)
  {
    Truncate(p * 100.0)
  }
}
