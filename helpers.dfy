/**
 * The chart helper of src/Utilis/Helpers.ts: `generateColorScale`, which
 * samples a colour interpolator at evenly spaced points of [0, 1).
 * The interpolator (`d3.interpolateRainbow`) is a parameter.
 */
module Helpers {

  /** A colour scheme: maps a parameter in [0, 1] to a CSS colour string. */
  type Interpolator = real -> string

  /** The sample point of colour `i` out of `count`: `i / count`. */
  function ColorParameter(i: int, count: int): (t: real)
    requires 0 <= i < count
    ensures 0.0 <= t < 1.0
    ensures i == 0 <==> t == 0.0
  {
    i as real / count as real
  }

  /** Later colours are sampled strictly further along the scheme, so no two samples coincide. */
  lemma ColorParametersIncrease(i: int, j: int, count: int)
    requires 0 <= i < j < count
    ensures ColorParameter(i, count) < ColorParameter(j, count)
  {
  }

  /** The whole scale: `count` samples, the `i`-th at `i / count`; nothing for a count below 1. */
  function ColorScale(count: int, interpolate: Interpolator): (colors: seq<string>)
    ensures |colors| == if count > 0 then count else 0
  {
    if count <= 0 then [] else seq(count, i requires 0 <= i < count => interpolate(ColorParameter(i, count)))
  }

  /** `generateColorScale(count)`: pushes one colour per index `0 <= i < count`. */
  method GenerateColorScale(count: int, interpolate: Interpolator) returns (colors: seq<string>)
    ensures colors == ColorScale(count, interpolate)
  {
    colors := [];
    var i := 0;
    while i < count
      invariant 0 <= i && (count > 0 ==> i <= count)
      invariant count <= 0 ==> i == 0
      invariant |colors| == i
      invariant forall k :: 0 <= k < i ==> colors[k] == interpolate(ColorParameter(k, count))
    {
      colors := colors + [interpolate(ColorParameter(i, count))];
      i := i + 1;
    }
  }

  /** Colour `i` is the scheme at `i / count`; the first, also the only one when `count` is 1, is the scheme at 0. */
  lemma ColorScaleElements(count: int, interpolate: Interpolator, i: int)
    requires 0 <= i < count
    ensures ColorScale(count, interpolate)[0] == interpolate(0.0)
    ensures ColorScale(count, interpolate)[i] == interpolate(ColorParameter(i, count))
    ensures count == 1 ==> ColorScale(count, interpolate) == [interpolate(0.0)]
  {
    assert ColorParameter(0, count) == 0.0;
  }
}
