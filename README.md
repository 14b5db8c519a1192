# Recursive art: a Dafny model

`recursive_art.py` draws abstract images. For each colour channel it builds a
random function of x and y as a nested expression tree
(`build_random_function`). It evaluates that tree at every pixel, after mapping
the pixel's coordinates into [-1, 1] (`evaluate_random_function`,
`remap_interval`). Then it turns the value into a colour channel in [0, 255]
(`color_map`).

This project models those four functions and the composition `generate_art`
makes of them. It proves what their docstrings and doctests promise, and
some properties the code implies.

- `expressions.dfy` (module `Expressions`): the vocabulary (`prod`,
  `sigmoid`, `squared`, `cubed`, `avg`, `cos_pi`, `sin_pi`) and expression
  trees.
  - A nested list becomes a `Term`. A leaf is `X`, `Y` or a constant; an inner
    node is `Un` (one argument) or `Bin` (two arguments).
  - The module also defines depth, with a leaf counting 1, and the tree shapes
    the builder produces.
- `builder.dfy` (module `Builder`): `build_random_function`.
  - Python's `random` module becomes an oracle `Draws`.
    - `unit(i)` is the number in [0, 1) that `random.random()` returns at
      call `i`.
    - `pick(i)` is the index in [0, 7) that `random.randrange` returns there.
  - The builder threads the position of the next draw through its recursion,
    in the program's order:
    - a leaf reads one draw;
    - an inner node reads an operator choice, then one child depth draw;
    - a two-argument node reads a second child depth draw, then builds its
      left argument and then its right one.
- `evaluator.dfy` (module `Evaluator`): `evaluate_random_function` over the
  reals.
- `interval.dfy` (module `Interval`): `remap_interval`. It is a method that
  follows the program's midpoint steps. It is proved equal to the affine map,
  and to fail with a division by zero exactly when the program does.
- `color.dfy` (module `Color`): `color_map`, which is the remap to [0, 255]
  followed by Python's `int()`, i.e. truncation toward zero.
- `art.dfy` (module `Art`): the three channel functions `generate_art` builds
  with depths (7, 9), and the colour of one pixel.

The builder's recursion terminates on max(min_depth, max_depth), not on
max_depth alone. When min_depth exceeds max_depth, a child's maximum depth can
be larger than its parent's: the call (5, 2) passes 3 to its children.

Two facts about the builder follow from the code:

- A two-argument node builds both its arguments with `max_depth_2`
  (`recursive_art.py:31-38`). `max_depth_1` is drawn on that path but never
  used (`Builder.FirstChildDepthUnusedForTwoChildren`).
- The docstring promises a depth of at most max_depth
  (`recursive_art.py:13-14`). It holds when min_depth <= max_depth and
  max_depth >= 1 (`Builder.BuildDepthBounds`). Because a leaf counts as
  depth 1, it fails for max_depth <= 0. `Builder.BuildDepthExceedsMax` shows
  it failing for (5, 2).

## Model

| member | source | states |
|---|---|---|
| `Expressions.Functions` | recursive_art.py:9 | the vocabulary in the program's order, indexed by the operator choice; no contract, it is a constant (the `Term` datatype gives each nested list a tree) |
| `Builder.Ceil` | recursive_art.py:31 | `math.ceil` gives the least integer not below its argument |
| `Builder.ScaledCeil` | recursive_art.py:31 | ceil(u * k) for a draw u in [0, 1) lies in [0, k] when k >= 0 and in (k, 0] when k < 0 |
| `Builder.ChildMaxDepth` | recursive_art.py:31 | the larger of a child's two depth bounds is below the larger of its parent's, so the recursion ends for any min_depth |
| `Builder.ChildMaxDepthRange` | recursive_art.py:31-36 | a child maximum depth lies in [min_depth - 1, max_depth - 1] when min_depth <= max_depth, and in [max_depth, min_depth - 1] otherwise |
| `Builder.Build` | recursive_art.py:12-38 | every call consumes at least one draw |
| `Builder.BuildNode` | recursive_art.py:28-38 | an inner node consumes at least one draw |
| `Builder.BuildLeaf` | recursive_art.py:24-26 | below depth 2 the result is one variable, read from one draw: x exactly when the draw exceeds 0.5, y otherwise |
| `Builder.BuildRoot` | recursive_art.py:29-38 | from depth 2 on the root is the picked operator; it has one argument exactly for sigmoid, cos_pi and sin_pi, and two for prod, avg, squared and cubed |
| `Builder.BuildShapeAndDraws` | recursive_art.py:12-38 | the tree has the builder's shape (variable leaves, the arities above) and uses exactly one draw per leaf plus two or three per inner node |
| `Builder.NodeShapeAndDraws` | recursive_art.py:28-38 | the same for the inner-node path |
| `Builder.BuildDepthBounds` | recursive_art.py:12-38 | when min_depth <= max_depth the depth is in [min_depth, max(max_depth, 1)]; for any bounds it is at most max(min_depth, max_depth, 1) |
| `Builder.NodeDepthBounds` | recursive_art.py:28-38 | the same for the inner-node path |
| `Builder.HalfChildMax` | recursive_art.py:31-36 | with draw 0.5 the child maximum depths along the build of (5, 2) are 3, 3, 2, 1 |
| `Builder.HalfDrawsDepth` | recursive_art.py:12-38 | when every draw is 0.5 and every choice is prod, the build at level k of (5, 2) has depth exactly k |
| `Builder.HalfNodeDepth` | recursive_art.py:28-38 | the same for the inner-node path |
| `Builder.BuildDepthExceedsMax` | recursive_art.py:12-14 | `build_random_function(5, 2)` can return a tree of depth 5, above max_depth |
| `Builder.BuildReadsOnlyItsDraws` | recursive_art.py:12-38 | two draw sources that agree on the draws a build consumes give the same tree and the same next position, so a replayed source rebuilds the same function |
| `Builder.NodeReadsOnlyItsDraws` | recursive_art.py:28-38 | the same for the inner-node path |
| `Builder.FirstChildDepthUnusedForTwoChildren` | recursive_art.py:31-38 | on the two-argument path, changing the first child depth draw leaves the tree unchanged: both arguments are built with the second |
| `Expressions.ShapedIsEvaluable` | recursive_art.py:33-38 | a tree of the builder's shape has no one-argument prod or avg node and no constants, so the evaluator can walk all of it |
| `Evaluator.Apply` | recursive_art.py:56-76 | the value of each operator on its argument values; no ensures, its properties are stated by `Evaluator.EvalArithmetic`, `Evaluator.SigmoidInOpenUnit` and `Evaluator.ApplyBounded` |
| `Evaluator.Eval` | recursive_art.py:41-85 | `evaluate_random_function` by structural recursion; no ensures, its properties are stated by `Evaluator.EvalLeaves`, `Evaluator.EvalArithmetic`, `Evaluator.SecondChildIgnored` and `Evaluator.EvalBounded` |
| `Evaluator.EvalLeaves` | recursive_art.py:77-85 | x yields x, y yields y, any other leaf is its own value; includes the two doctests |
| `Evaluator.EvalArithmetic` | recursive_art.py:56-70 | prod, avg, squared and cubed give a*b, (a+b)/2, a^2 and a^3 of the argument values |
| `Evaluator.SecondChildIgnored` | recursive_art.py:59-76 | for every operator except prod and avg, the second argument never changes the value, which equals that of the node with one argument |
| `Evaluator.UnreadArgumentMayBeMalformed` | recursive_art.py:62-64 | a squared node whose second argument is a one-argument product (which would fail if read) evaluates to the square of its first argument |
| `Evaluator.SigmoidInOpenUnit` | recursive_art.py:59-61 | the sigmoid lies strictly between 0 and 1 |
| `Evaluator.ApplyBounded` | recursive_art.py:56-76 | each operator maps arguments in [-1, 1] into [-1, 1] |
| `Evaluator.EvalBounded` | recursive_art.py:41-85 | at a point of [-1, 1] x [-1, 1], a function whose constants lie in [-1, 1] evaluates into [-1, 1] |
| `Interval.Remap` | recursive_art.py:116-129 | the affine map the midpoint steps compute; no ensures, its properties are stated by `Interval.RemapInterval`, `Interval.RemapEndpoints`, `Interval.RemapRoundTrip`, `Interval.RemapMonotone` and `Interval.RemapInRange` |
| `Interval.RemapInterval` | recursive_art.py:116-129 | the midpoint steps fail with a division by zero exactly when either interval is empty, and otherwise return the affine map out_start + (val - in_start) * out_range / in_range |
| `Interval.MidpointMethod` | recursive_art.py:117-127 | centring, dividing by in_range / out_range and shifting computes the affine map |
| `Interval.RemapEndpoints` | recursive_art.py:94-96 | in_start goes to out_start and in_end to out_end |
| `Interval.RemapExamples` | recursive_art.py:109-114 | the three doctest values 5.0, 1.0 and 1.5 |
| `Interval.RemapRoundTrip` | recursive_art.py:116-129 | remapping back from the output interval to the input interval recovers the value |
| `Interval.RemapMonotone` | recursive_art.py:116-129 | for non-empty intervals, strictly increasing when both run the same direction (both upwards or both downwards), strictly decreasing when they run in opposite directions |
| `Interval.RemapInRange` | recursive_art.py:94-107 | a value in [in_start, in_end) lands in [out_start, out_end) |
| `Interval.PixelCoordinateInRange` | recursive_art.py:189-190 | the coordinate of pixel i of an image `size` pixels wide lies in [-1, 1) |
| `Color.Trunc` | recursive_art.py:150 | `int()` on a real: the integer part, truncated toward zero |
| `Color.TruncMonotone` | recursive_art.py:150 | truncation preserves order |
| `Color.ColorMap` | recursive_art.py:132-150 | `color_map`: the remap onto [0, 255] then truncation; no ensures, its properties are stated by `Color.ColorMapExamples`, `Color.ColorMapRange`, `Color.ColorMapMonotone`, `Color.ColorMapBucket` and `Color.ColorMapNotClamped` |
| `Color.ColorCode` | recursive_art.py:149 | the colour code is (val + 1) * 127.5 |
| `Color.ColorMapExamples` | recursive_art.py:139-146 | the doctests -1 to 0, 1 to 255, 0 to 127, 0.5 to 191 |
| `Color.ColorMapRange` | recursive_art.py:136-137 | a value in [-1, 1] maps to an integer in [0, 255] |
| `Color.ColorMapMonotone` | recursive_art.py:148-150 | color_map never decreases as its argument grows |
| `Color.ColorMapBucket` | recursive_art.py:149-150 | for val >= -1 the result is k exactly when the colour code lies in [k, k + 1) |
| `Color.ColorMapNotClamped` | recursive_art.py:136-150 | outside [-1, 1] the result is not clamped: -2 gives -127, 3 gives 510, -1.004 gives 0 (truncation, not floor) |
| `Art.ArtFunctions` | recursive_art.py:180-182 | the three builds with (7, 9), each reading its draws where the previous stopped; no ensures, its properties are stated by `Art.ArtFunctionShape` and `Art.ArtPixelInRange` |
| `Art.PixelColor` | recursive_art.py:189-194 | one pixel's remapped coordinates, the three channel values and their colour mapping; no ensures, its range is stated by `Art.ArtPixelInRange` |
| `Art.ArtFunctionShape` | recursive_art.py:180-182 | every channel function `generate_art` builds has depth between 7 and 9, the builder's shape, and no constants |
| `Art.ChannelInRange` | recursive_art.py:189-194 | a channel function evaluated at a pixel's remapped coordinates gives a channel value in [0, 255] |
| `Art.ArtPixelInRange` | recursive_art.py:179-195 | whatever the draws and the ranged math functions, the three channels of every pixel are in [0, 255] |

## Left out

- The image library: `Image.new`, the pixel access object, `im.save`, and the nested pixel loops that write the grid in `generate_art` and `test_image` (recursive_art.py:153-197). These are file I/O through a library outside the model. Each pixel's colour is modelled by `Art.PixelColor`.
- `test_image`'s per-pixel `random.randint` noise: it has no behaviour beyond the library calls.
- Python's pseudo-random generator. Draws are an arbitrary oracle of values in their documented ranges. The oracle never runs out.
- IEEE floating point. Every computation is over the reals, so the doctest values hold exactly; float rounding in `remap_interval` and in `math.pow` is not modelled.
- `math.exp`, `math.cos`, `math.sin` and `math.pi` are parameters (`Evaluator.MathLib`). The only facts about them are that exp is positive and that cos and sin lie in [-1, 1].
- `Evaluator.Eval`: evaluating a one-argument prod or avg node makes Python raise IndexError. Eval's precondition excludes trees where such a node is evaluated, instead of returning an error. The same node in the unread second argument of another operator is allowed, as in Python. The builder never makes such a node.
- `Evaluator.Eval`, `Evaluator.Apply`: the value is total over the reals. Python raises OverflowError in `math.exp(-v)` for v below about -709.8 (recursive_art.py:61) and in `math.pow` when the result overflows (recursive_art.py:64, 67). `math.cos` and `math.sin` raise ValueError on an infinite argument (recursive_art.py:73, 76). `generate_art` never reaches these paths, because its values stay in [-1, 1].
- `Builder.Build`: the recursion has no depth limit. Python raises RecursionError past its recursion limit of about 1000 levels. `generate_art` never reaches it, because its trees have depth at most 9.
- Nested lists that are not trees over the vocabulary cannot be represented. Examples are a bare number as a leaf outside a list, or a tag that is not a number.
- The `__main__` block and the doctest runner (recursive_art.py:200-211).
