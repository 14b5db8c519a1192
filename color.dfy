/** color_map: a function value in [-1, 1] to a colour channel in [0, 255]. */
module Color {
  import opened Interval

  /** Python's int() on a float: the integer part, truncated toward zero. */
  function Trunc(r: real): (n: int)
    ensures 0.0 <= r ==> n as real <= r < n as real + 1.0
    ensures r < 0.0 ==> n as real - 1.0 < r <= n as real
  {
    if 0.0 <= r then r.Floor else -((-r).Floor)
  }

  /** Truncation preserves order. */
  lemma TruncMonotone(r: real, s: real)
    requires r <= s
    ensures Trunc(r) <= Trunc(s)
  {
  }

  /** color_map(val): remap [-1, 1] onto [0, 255], then int(). */
  function ColorMap(v: real): int {
    Trunc(Remap(v, -1.0, 1.0, 0.0, 255.0))
  }

  /** The intermediate colour code is (v + 1) * 127.5. */
  lemma ColorCode(v: real)
    ensures Remap(v, -1.0, 1.0, 0.0, 255.0) == (v + 1.0) * 127.5
  {
  }

  /** color_map(-1.0) == 0, color_map(1.0) == 255, color_map(0.0) == 127
      and color_map(0.5) == 191. */
  lemma ColorMapExamples()
    ensures ColorMap(-1.0) == 0 && ColorMap(1.0) == 255
    ensures ColorMap(0.0) == 127 && ColorMap(0.5) == 191
  {
  }

  /** A value in [-1, 1] maps to an integer in [0, 255]. */
  lemma ColorMapRange(v: real)
    requires -1.0 <= v <= 1.0
    ensures 0 <= ColorMap(v) <= 255
  {
  }

  /** color_map never decreases as its argument grows. */
  lemma ColorMapMonotone(v: real, w: real)
    requires v <= w
    ensures ColorMap(v) <= ColorMap(w)
  {
  }

  /** For v >= -1 the channel is k exactly when the colour code lies in
      [k, k + 1): each channel value covers one unit of the code. */
  lemma ColorMapBucket(v: real, k: int)
    requires -1.0 <= v
    ensures ColorMap(v) == k <==> k as real <= (v + 1.0) * 127.5 < k as real + 1.0
  {
  }

  /** Outside [-1, 1] the result is not clamped to [0, 255]: the colour
      code is truncated toward zero, so -2 gives -127, 3 gives 510, and
      -1.004, whose colour code is -0.51, gives 0 rather than -1. */
  lemma ColorMapNotClamped()
    ensures ColorMap(-2.0) == -127 && ColorMap(3.0) == 510 && ColorMap(-1.004) == 0
  {
  }
}
