/**
 * Learning-rate schedule arithmetic shared by the DPO trainer and the RLHF
 * engine: the number of optimizer updates per epoch and the resolution of
 * `num_warmup_steps`, which is a ratio of all updates when it is at most 1
 * and an absolute step count otherwise.
 */
module Schedule {

  /** Python's `int(x)` on a float: truncation toward zero. */
  function Trunc(x: real): (r: int)
    ensures 0.0 <= x ==> r as real <= x < r as real + 1.0
    ensures x < 0.0 ==> r as real - 1.0 < x <= r as real
  {
    if x >= 0.0 then x.Floor else -((-x).Floor)
  }

  /** `int` leaves a value that already is a whole number unchanged. */
  lemma TruncOfInt(n: int)
    ensures Trunc(n as real) == n
  {
  }

  /** Python's `math.ceil(n / g)`, where `/` is true (real) division. */
  function CeilDiv(n: int, g: int): (r: int)
    requires g != 0
    ensures (r - 1) as real < n as real / g as real <= r as real
  {
    -((-(n as real / g as real)).Floor)
  }

  /**
   * Updates per epoch: `ceil(batches / gradient_accumulation_steps)`.  For a
   * positive accumulation count this is the least number of updates whose
   * accumulated batches cover every batch.
   */
  function StepsPerEpoch(batches: int, accumulation: int): int
    requires accumulation != 0
  {
    CeilDiv(batches, accumulation)
  }

  lemma {:induction false} StepsPerEpochIsLeastCover(batches: int, accumulation: int)
    requires accumulation > 0
    ensures StepsPerEpoch(batches, accumulation) * accumulation >= batches
    ensures (StepsPerEpoch(batches, accumulation) - 1) * accumulation < batches
  {
    var r := StepsPerEpoch(batches, accumulation);
    var q := batches as real / accumulation as real;
    assert (r - 1) as real < q <= r as real;
    QuotientTimesDivisor(batches as real, accumulation as real);
    CoveredAfterScaling(q, r, accumulation, batches);
    ShortAfterScaling(q, r - 1, accumulation, batches);
  }

  lemma QuotientTimesDivisor(x: real, g: real)
    requires g != 0.0
    ensures x / g * g == x
  {
  }

  /** q <= a and q * g == b give a * g >= b. */
  lemma CoveredAfterScaling(q: real, a: int, g: int, b: int)
    requires g > 0 && q <= a as real && q * g as real == b as real
    ensures a * g >= b
  {
    ScaleLe(q, a as real, g as real);
    IntProductAsReal(a, g);
  }

  /** a < q and q * g == b give a * g < b. */
  lemma ShortAfterScaling(q: real, a: int, g: int, b: int)
    requires g > 0 && a as real < q && q * g as real == b as real
    ensures a * g < b
  {
    ScaleLt(a as real, q, g as real);
    IntProductAsReal(a, g);
  }

  lemma ScaleLe(a: real, b: real, g: real)
    requires a <= b && g > 0.0
    ensures a * g <= b * g
  {
  }

  lemma ScaleLt(a: real, b: real, g: real)
    requires a < b && g > 0.0
    ensures a * g < b * g
  {
  }

  lemma IntProductAsReal(a: int, b: int)
    ensures (a * b) as real == a as real * b as real
  {
  }

  /**
   * The value `num_warmup_steps` is overwritten with: a value at most 1 is a
   * ratio of `epochs * stepsPerEpoch` updates, anything larger a step count;
   * both go through Python's `int`.
   */
  function ResolveWarmup(w: real, epochs: int, stepsPerEpoch: int): int
  {
    if w <= 1.0 then Trunc(w * epochs as real * stepsPerEpoch as real) else Trunc(w)
  }

  /** A ratio in [0, 1] gives a warmup between 0 and the total number of updates. */
  lemma WarmupRatioBounds(w: real, epochs: nat, stepsPerEpoch: nat)
    requires 0.0 <= w <= 1.0
    ensures 0 <= ResolveWarmup(w, epochs, stepsPerEpoch) <= epochs * stepsPerEpoch
  {
    var total := epochs as real * stepsPerEpoch as real;
    assert total == (epochs * stepsPerEpoch) as real;
    assert 0.0 <= total;
    assert w * epochs as real * stepsPerEpoch as real == w * total;
    assert w * total <= total;
  }

  /** A value above 1 is an absolute step count: its integer part, at least 1. */
  lemma WarmupAbsolute(w: real, epochs: int, stepsPerEpoch: int)
    requires w > 1.0
    ensures ResolveWarmup(w, epochs, stepsPerEpoch) == w.Floor >= 1
  {
  }

  /**
   * Resolving a value that is already a whole number of steps, as the critic
   * does with the value the actor wrote back: a number at most 1 is read as a
   * ratio again and multiplied by the total number of updates, a larger one
   * is kept.
   */
  lemma {:induction false} ResolveResolved(n: int, epochs: int, stepsPerEpoch: int)
    ensures ResolveWarmup(n as real, epochs, stepsPerEpoch)
            == if n <= 1 then n * epochs * stepsPerEpoch else n
  {
    if n <= 1 {
      assert n as real * epochs as real * stepsPerEpoch as real == (n * epochs * stepsPerEpoch) as real;
      TruncOfInt(n * epochs * stepsPerEpoch);
    } else {
      TruncOfInt(n);
    }
  }

  /**
   * The consequence for running the resolution twice: 0 stays 0, a count of
   * at least 2 is a fixed point, and a resolved count of exactly 1 becomes the
   * whole run, `epochs * stepsPerEpoch` warmup steps.
   */
  lemma ResolveTwice(w: real, epochs: int, stepsPerEpoch: int)
    ensures var once := ResolveWarmup(w, epochs, stepsPerEpoch);
            var twice := ResolveWarmup(once as real, epochs, stepsPerEpoch);
            (once == 0 ==> twice == 0)
            && (once >= 2 ==> twice == once)
            && (once == 1 ==> twice == epochs * stepsPerEpoch)
  {
    ResolveResolved(ResolveWarmup(w, epochs, stepsPerEpoch), epochs, stepsPerEpoch);
  }
}
