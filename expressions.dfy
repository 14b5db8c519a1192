/** Random functions of x and y as trees over a fixed operator vocabulary.

    The program writes a function as a nested list whose head is a tag
    ('prod', 'sigmoid', ..., 'x', 'y' or a number) and whose tail holds the
    arguments. Here a leaf is X, Y or a constant, and an inner node is Un
    (one argument) or Bin (two arguments) carrying its operator. */
module Expressions {

  /** The operator vocabulary. */
  datatype Op = Prod | Sigmoid | Squared | Cubed | Avg | CosPi | SinPi

  /** The vocabulary in the order the builder indexes it. */
  const Functions: seq<Op> := [Prod, Sigmoid, Squared, Cubed, Avg, CosPi, SinPi]

  const FunctionCount: nat := |Functions|

  /** The operators the builder gives a single argument. Every other operator,
      Squared and Cubed included, is built with two arguments. */
  predicate TakesOneChild(op: Op) {
    op == SinPi || op == CosPi || op == Sigmoid
  }

  /** The operators whose value depends on their second argument. */
  predicate ReadsTwoChildren(op: Op) {
    op == Prod || op == Avg
  }

  datatype Term =
    | X
    | Y
    | Const(c: real)
    | Un(op: Op, arg: Term)
    | Bin(op: Op, left: Term, right: Term)

  function Max(a: int, b: int): int { if a < b then b else a }

  /** Number of nodes on the longest path from the root to a leaf; a leaf has depth 1. */
  function Depth(t: Term): (n: nat)
    ensures 1 <= n
  {
    match t
    case X => 1
    case Y => 1
    case Const(_) => 1
    case Un(_, a) => 1 + Depth(a)
    case Bin(_, l, r) => 1 + Max(Depth(l), Depth(r))
  }

  /** Number of random draws the builder spends on a tree of this shape:
      one per leaf, and per inner node one operator choice and one or two
      child depth draws. Constants are never built, so they cost nothing. */
  function DrawCount(t: Term): (n: nat)
  {
    match t
    case X => 1
    case Y => 1
    case Const(_) => 0
    case Un(_, a) => 2 + DrawCount(a)
    case Bin(_, l, r) => 3 + DrawCount(l) + DrawCount(r)
  }

  /** The shape the builder produces: variable leaves only, single-argument
      nodes for sigmoid, cos_pi and sin_pi, two-argument nodes for the rest. */
  predicate Shaped(t: Term) {
    match t
    case X => true
    case Y => true
    case Const(_) => false
    case Un(op, a) => TakesOneChild(op) && Shaped(a)
    case Bin(op, l, r) => !TakesOneChild(op) && Shaped(l) && Shaped(r)
  }

  /** Trees the evaluator can walk without indexing past the end of a node:
      a product or an average needs its second argument. The second argument
      of any other operator is never read, so it may be anything. */
  predicate Evaluable(t: Term) {
    match t
    case X => true
    case Y => true
    case Const(_) => true
    case Un(op, a) => !ReadsTwoChildren(op) && Evaluable(a)
    case Bin(op, l, r) => Evaluable(l) && (ReadsTwoChildren(op) ==> Evaluable(r))
  }

  /** Every constant leaf lies in [-1, 1]. */
  predicate UnitConstants(t: Term) {
    match t
    case X => true
    case Y => true
    case Const(c) => -1.0 <= c <= 1.0
    case Un(_, a) => UnitConstants(a)
    case Bin(_, l, r) => UnitConstants(l) && UnitConstants(r)
  }

  /** A tree of the builder's shape can be evaluated and has no constants. */
  lemma {:induction false} ShapedIsEvaluable(t: Term)
    requires Shaped(t)
    ensures Evaluable(t) && UnitConstants(t)
  {
    match t
    case X =>
    case Y =>
    case Un(_, a) => ShapedIsEvaluable(a);
    case Bin(_, l, r) => ShapedIsEvaluable(l); ShapedIsEvaluable(r);
  }
}
