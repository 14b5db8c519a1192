/** generate_art without the image library: the three channel functions it
    builds and the colour it gives each pixel. */
module Art {
  import opened Expressions
  import opened Builder
  import opened Evaluator
  import opened Interval
  import opened Color

  /** The red, green and blue channel functions. */
  datatype Channels = Channels(red: Term, green: Term, blue: Term)

  /** The colour of one pixel. */
  datatype Rgb = Rgb(red: int, green: int, blue: int)

  /** The three calls build_random_function(7, 9), red first, each reading
      its draws where the previous one stopped. */
  function ArtFunctions(d: Draws, pos: nat): Channels {
    var red := Build(d, pos, 7, 9);
    var green := Build(d, red.next, 7, 9);
    var blue := Build(d, green.next, 7, 9);
    Channels(red.tree, green.tree, blue.tree)
  }

  predicate Evaluables(c: Channels) {
    Evaluable(c.red) && Evaluable(c.green) && Evaluable(c.blue)
  }

  /** The colour of pixel (i, j) of a width x height image: the pixel's
      coordinates remapped into [-1, 1], each channel function evaluated
      there and mapped to a colour channel. */
  function PixelColor(m: MathLib, c: Channels, i: nat, j: nat, width: nat, height: nat): Rgb
    requires Evaluables(c) && i < width && j < height
  {
    var x := Remap(i as real, 0.0, width as real, -1.0, 1.0);
    var y := Remap(j as real, 0.0, height as real, -1.0, 1.0);
    Rgb(ColorMap(Eval(m, c.red, x, y)), ColorMap(Eval(m, c.green, x, y)), ColorMap(Eval(m, c.blue, x, y)))
  }

  /** A function generate_art builds has depth between 7 and 9, the
      builder's shape and no constants. */
  lemma ArtFunctionShape(d: Draws, pos: nat)
    ensures var t := Build(d, pos, 7, 9).tree;
            7 <= Depth(t) <= 9 && Shaped(t) && Evaluable(t) && UnitConstants(t)
  {
    var t := Build(d, pos, 7, 9).tree;
    BuildDepthBounds(d, pos, 7, 9);
    BuildShapeAndDraws(d, pos, 7, 9);
    ShapedIsEvaluable(t);
  }

  /** A channel function with constants in [-1, 1], evaluated at a pixel,
      gives a channel value in [0, 255]. */
  lemma ChannelInRange(m: MathLib, t: Term, i: nat, size: nat, j: nat, size2: nat)
    requires Evaluable(t) && UnitConstants(t) && i < size && j < size2
    ensures var x := Remap(i as real, 0.0, size as real, -1.0, 1.0);
            var y := Remap(j as real, 0.0, size2 as real, -1.0, 1.0);
            0 <= ColorMap(Eval(m, t, x, y)) <= 255
  {
    var x := Remap(i as real, 0.0, size as real, -1.0, 1.0);
    var y := Remap(j as real, 0.0, size2 as real, -1.0, 1.0);
    PixelCoordinateInRange(i, size);
    PixelCoordinateInRange(j, size2);
    EvalBounded(m, t, x, y);
    ColorMapRange(Eval(m, t, x, y));
  }

  /** Whatever the draws and whatever exp, cos and sin return within their
      ranges, every pixel generate_art colours gets three channel values in
      [0, 255], the range an RGB pixel holds. */
  lemma ArtPixelInRange(m: MathLib, d: Draws, pos: nat, i: nat, j: nat, width: nat, height: nat)
    requires i < width && j < height
    ensures var c := ArtFunctions(d, pos);
            Evaluables(c) &&
            var p := PixelColor(m, c, i, j, width, height);
            0 <= p.red <= 255 && 0 <= p.green <= 255 && 0 <= p.blue <= 255
  {
    var red := Build(d, pos, 7, 9);
    var green := Build(d, red.next, 7, 9);
    var blue := Build(d, green.next, 7, 9);
    ArtFunctionShape(d, pos);
    ArtFunctionShape(d, red.next);
    ArtFunctionShape(d, green.next);
    ChannelInRange(m, red.tree, i, width, j, height);
    ChannelInRange(m, green.tree, i, width, j, height);
    ChannelInRange(m, blue.tree, i, width, j, height);
  }
}
