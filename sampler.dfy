/**
 * The planner's random source: `sampler_imp` over a uniform engine, and the
 * `uniform_real_distribution` ranges it draws from.
 */
module Sampling {

  /** One output of the engine, scaled into [0, 1). */
  type Unit = u: real | 0.0 <= u < 1.0

  /** `std::uniform_real_distribution<float>(low, high)`. */
  datatype Range = Range(low: real, high: real)

  /** v is a value the range can produce: inside [low, high), or low itself when the range is a point. */
  predicate Within(range: Range, v: real)
  {
    && (range.low < range.high ==> range.low <= v < range.high)
    && (range.low == range.high ==> v == range.low)
  }

  /** Map an engine output u into the range. */
  function Draw(range: Range, u: Unit): (v: real)
    ensures range.low <= range.high ==> Within(range, v)
  {
    var width := range.high - range.low;
    ScaleBelow(u, width);
    assert range.low + width == range.high;
    range.low + u * width
  }

  lemma ScaleBelow(u: Unit, d: real)
    ensures 0.0 <= d ==> 0.0 <= u * d <= d
    ensures 0.0 < d ==> u * d < d
  {
    if 0.0 < d {
      assert d - u * d == (1.0 - u) * d;
      assert (1.0 - u) * d > 0.0;
    }
  }

  /** The default engine's stream (`std::mt19937` from its default seed); its internals are not part of this model. */
  const Mt19937: nat -> Unit

  /** `sampler_imp<T>`: the engine's stream and how many values have been taken from it. */
  class Sampler {
    const engine: nat -> Unit
    var drawn: nat

    constructor (engine: nat -> Unit)
      ensures this.engine == engine && drawn == 0
    {
      this.engine := engine;
      drawn := 0;
    }

    /** `seed(seed)`: the argument is ignored and the engine restarts from its default state. */
    method Seed(seed: nat)
      modifies this
      ensures drawn == 0
    {
      drawn := 0;
    }

    /** `generate(range)`: the next engine output mapped into the range. */
    method Generate(range: Range) returns (v: real)
      modifies this
      ensures drawn == old(drawn) + 1
      ensures v == Draw(range, engine(old(drawn)))
      ensures range.low <= range.high ==> Within(range, v)
    {
      v := Draw(range, engine(drawn));
      drawn := drawn + 1;
    }
  }
}
