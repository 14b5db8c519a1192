/** remap_interval: the affine map from one interval onto another. */
module Interval {

  /** What remap_interval produces: a value, or the ZeroDivisionError Python
      raises when either interval is empty. */
  datatype Outcome = Ok(value: real) | DivisionByZero

  /** The affine map sending inStart to outStart and inEnd to outEnd. */
  function Remap(v: real, inStart: real, inEnd: real, outStart: real, outEnd: real): real
    requires inStart != inEnd
  {
    outStart + (v - inStart) * (outEnd - outStart) / (inEnd - inStart)
  }

  /** remap_interval(val, in_start, in_end, out_start, out_end), by the
      midpoint method of the program: centre the value on the input
      midpoint, divide by the ratio of the two interval lengths, and shift
      to the output midpoint. The first division fails when the output
      interval is empty; when only the input interval is empty the ratio is
      0 and the second division fails. Otherwise the result is the affine
      map. */
  method RemapInterval(val: real, inStart: real, inEnd: real, outStart: real, outEnd: real)
    returns (r: Outcome)
    ensures r.DivisionByZero? <==> inStart == inEnd || outStart == outEnd
    ensures r.Ok? ==> inStart != inEnd && r.value == Remap(val, inStart, inEnd, outStart, outEnd)
  {
    var inRange := inEnd - inStart;
    var inMed := inRange / 2.0 + inStart;
    var outRange := outEnd - outStart;
    var outMed := outRange / 2.0 + outStart;
    if outRange == 0.0 {
      return DivisionByZero;
    }
    var scalar := inRange / outRange;
    var v := val;
    v := v - inMed;
    if scalar == 0.0 {
      return DivisionByZero;
    }
    v := v / scalar;
    v := v + outMed;
    MidpointMethod(val, inStart, inEnd, outStart, outEnd);
    return Ok(v);
  }

  /** The midpoint computation agrees with the affine map. */
  lemma MidpointMethod(v: real, inStart: real, inEnd: real, outStart: real, outEnd: real)
    requires inStart != inEnd && outStart != outEnd
    ensures var inRange, outRange := inEnd - inStart, outEnd - outStart;
            (v - (inRange / 2.0 + inStart)) / (inRange / outRange) + (outRange / 2.0 + outStart)
            == Remap(v, inStart, inEnd, outStart, outEnd)
  {
  }

  /** The input interval's ends go to the output interval's ends. */
  lemma RemapEndpoints(inStart: real, inEnd: real, outStart: real, outEnd: real)
    requires inStart != inEnd
    ensures Remap(inStart, inStart, inEnd, outStart, outEnd) == outStart
    ensures Remap(inEnd, inStart, inEnd, outStart, outEnd) == outEnd
  {
  }

  /** remap_interval(0.5, 0, 1, 0, 10) == 5.0, remap_interval(5, 4, 6, 0, 2)
      == 1.0 and remap_interval(5, 4, 6, 1, 2) == 1.5. */
  lemma RemapExamples()
    ensures Remap(0.5, 0.0, 1.0, 0.0, 10.0) == 5.0
    ensures Remap(5.0, 4.0, 6.0, 0.0, 2.0) == 1.0
    ensures Remap(5.0, 4.0, 6.0, 1.0, 2.0) == 1.5
  {
  }

  /** Mapping back from the output interval onto the input interval recovers
      the value. */
  lemma RemapRoundTrip(v: real, inStart: real, inEnd: real, outStart: real, outEnd: real)
    requires inStart != inEnd && outStart != outEnd
    ensures Remap(Remap(v, inStart, inEnd, outStart, outEnd), outStart, outEnd, inStart, inEnd) == v
  {
  }

  /** The map is strictly increasing when both intervals run the same
      direction, and strictly decreasing when they run in opposite
      directions. */
  lemma RemapMonotone(v: real, w: real, inStart: real, inEnd: real, outStart: real, outEnd: real)
    requires inStart != inEnd && outStart != outEnd && v < w
    ensures (inStart < inEnd) == (outStart < outEnd) ==>
              Remap(v, inStart, inEnd, outStart, outEnd) < Remap(w, inStart, inEnd, outStart, outEnd)
    ensures (inStart < inEnd) != (outStart < outEnd) ==>
              Remap(w, inStart, inEnd, outStart, outEnd) < Remap(v, inStart, inEnd, outStart, outEnd)
  {
  }

  /** A value in [inStart, inEnd) of an upward interval lands in
      [outStart, outEnd) of an upward one. */
  lemma RemapInRange(v: real, inStart: real, inEnd: real, outStart: real, outEnd: real)
    requires inStart < inEnd && outStart < outEnd && inStart <= v < inEnd
    ensures outStart <= Remap(v, inStart, inEnd, outStart, outEnd) < outEnd
  {
    RemapEndpoints(inStart, inEnd, outStart, outEnd);
    if inStart < v {
      RemapMonotone(inStart, v, inStart, inEnd, outStart, outEnd);
    }
    RemapMonotone(v, inEnd, inStart, inEnd, outStart, outEnd);
  }

  /** The coordinate remap_interval(i, 0, size, -1, 1) of pixel column or
      row i of an image size pixels wide lies in [-1, 1). */
  lemma PixelCoordinateInRange(i: nat, size: nat)
    requires i < size
    ensures -1.0 <= Remap(i as real, 0.0, size as real, -1.0, 1.0) < 1.0
  {
  }
}
