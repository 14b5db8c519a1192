/** The evaluator of random functions at a point (x, y). The transcendental
    library functions are parameters: only their ranges are known here. */
module Evaluator {
  import opened Expressions

  /** A positive real, as math.exp returns. */
  type Positive = r: real | 0.0 < r witness 1.0

  /** A real in [-1, 1], as math.cos and math.sin return. */
  type Bounded = r: real | -1.0 <= r <= 1.0

  /** math.exp, math.cos, math.sin and math.pi. */
  datatype MathLib = MathLib(exp: real -> Positive, cos: real -> Bounded, sin: real -> Bounded, pi: real)

  /** The value of an operator node whose first argument evaluated to a and
      whose second, when the operator reads one, evaluated to b. */
  function Apply(m: MathLib, op: Op, a: real, b: real): real {
    match op
    case Prod => a * b
    case Sigmoid => 1.0 / (1.0 + m.exp(-a))
    case Squared => a * a
    case Cubed => a * a * a
    case Avg => (a + b) / 2.0
    case CosPi => m.cos(a * m.pi)
    case SinPi => m.sin(a * m.pi)
  }

  /** evaluate_random_function(f, x, y). A node with one argument passes no
      second value; Evaluable guarantees its operator does not need one. A
      node with two arguments whose operator reads only one never evaluates
      the second. */
  function Eval(m: MathLib, t: Term, x: real, y: real): real
    requires Evaluable(t)
  {
    match t
    case X => x
    case Y => y
    case Const(c) => c
    case Un(op, a) => Apply(m, op, Eval(m, a, x, y), 0.0)
    case Bin(op, l, r) =>
      if ReadsTwoChildren(op) then Apply(m, op, Eval(m, l, x, y), Eval(m, r, x, y))
      else Apply(m, op, Eval(m, l, x, y), 0.0)
  }

  /** The leaves: x yields x, y yields y and any other tag is its own value,
      as in evaluate_random_function(["x"], -0.5, 0.75) == -0.5 and
      evaluate_random_function(["y"], 0.1, 0.02) == 0.02. */
  lemma EvalLeaves(m: MathLib, x: real, y: real, c: real)
    ensures Eval(m, X, x, y) == x && Eval(m, Y, x, y) == y && Eval(m, Const(c), x, y) == c
    ensures Eval(m, X, -0.5, 0.75) == -0.5 && Eval(m, Y, 0.1, 0.02) == 0.02
  {
  }

  /** The exact arithmetic operators: product, average, square and cube of
      the argument values. */
  lemma EvalArithmetic(m: MathLib, a: Term, b: Term, x: real, y: real)
    requires Evaluable(a) && Evaluable(b)
    ensures var u, v := Eval(m, a, x, y), Eval(m, b, x, y);
            && Eval(m, Bin(Prod, a, b), x, y) == u * v
            && Eval(m, Bin(Avg, a, b), x, y) == (u + v) / 2.0
            && Eval(m, Bin(Squared, a, b), x, y) == u * u
            && Eval(m, Bin(Cubed, a, b), x, y) == u * u * u
  {
  }

  /** An operator other than prod and avg reads only its first argument: the
      second argument of its node, whatever it is, never changes the value,
      which is that of the node with the first argument alone. */
  lemma SecondChildIgnored(m: MathLib, op: Op, a: Term, b1: Term, b2: Term, x: real, y: real)
    requires !ReadsTwoChildren(op) && Evaluable(a)
    ensures Eval(m, Bin(op, a, b1), x, y) == Eval(m, Bin(op, a, b2), x, y) == Eval(m, Un(op, a), x, y)
  {
  }

  /** An unread second argument may itself be malformed: a squared node
      whose second argument is a product with one argument still evaluates
      to the square of its first. */
  lemma UnreadArgumentMayBeMalformed(m: MathLib, x: real, y: real)
    ensures !Evaluable(Un(Prod, X))
    ensures Evaluable(Bin(Squared, X, Un(Prod, X))) && Eval(m, Bin(Squared, X, Un(Prod, X)), x, y) == x * x
  {
  }

  /** A product of two numbers in [-1, 1] lies in [-1, 1]. */
  lemma ProductBounded(a: real, b: real)
    requires -1.0 <= a <= 1.0 && -1.0 <= b <= 1.0
    ensures -1.0 <= a * b <= 1.0
  {
    if 0.0 <= a {
      if 0.0 <= b {
        assert a * b <= a * 1.0;
      } else {
        assert a * b >= a * -1.0;
      }
    } else {
      if 0.0 <= b {
        assert a * b >= -1.0 * b;
      } else {
        assert a * b <= -1.0 * b;
      }
    }
  }

  /** The sigmoid lies strictly between 0 and 1. */
  lemma SigmoidInOpenUnit(m: MathLib, a: real)
    ensures 0.0 < Apply(m, Sigmoid, a, 0.0) < 1.0
  {
  }

  /** Every operator maps arguments in [-1, 1] into [-1, 1]. */
  lemma ApplyBounded(m: MathLib, op: Op, a: real, b: real)
    requires -1.0 <= a <= 1.0 && -1.0 <= b <= 1.0
    ensures -1.0 <= Apply(m, op, a, b) <= 1.0
  {
    match op
    case Prod => ProductBounded(a, b);
    case Sigmoid => SigmoidInOpenUnit(m, a);
    case Squared => ProductBounded(a, a);
    case Cubed => ProductBounded(a, a); ProductBounded(a * a, a);
    case Avg =>
    case CosPi =>
    case SinPi =>
  }

  /** At a point of the square [-1, 1] x [-1, 1], a function whose constants
      lie in [-1, 1] evaluates into [-1, 1], the range color_map expects. */
  lemma {:induction false} EvalBounded(m: MathLib, t: Term, x: real, y: real)
    requires Evaluable(t) && UnitConstants(t)
    requires -1.0 <= x <= 1.0 && -1.0 <= y <= 1.0
    ensures -1.0 <= Eval(m, t, x, y) <= 1.0
  {
    match t
    case X =>
    case Y =>
    case Const(_) =>
    case Un(op, a) =>
      EvalBounded(m, a, x, y);
      ApplyBounded(m, op, Eval(m, a, x, y), 0.0);
    case Bin(op, l, r) =>
      EvalBounded(m, l, x, y);
      if ReadsTwoChildren(op) {
        EvalBounded(m, r, x, y);
        ApplyBounded(m, op, Eval(m, l, x, y), Eval(m, r, x, y));
      } else {
        ApplyBounded(m, op, Eval(m, l, x, y), 0.0);
      }
  }
}
