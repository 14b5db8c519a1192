/** The random function builder. Python's random module is replaced by an
    oracle of draws read at a position that the builder threads through its
    recursion, one position per call into the random module, in the order the
    program makes those calls. */
module Builder {
  import opened Expressions

  /** unit(i) is what random.random() returns at the i-th call, pick(i) what
      random.randrange(0, 7, 1) returns there. Each position is read once,
      as one kind or the other. */
  datatype Draws = Draws(unit: nat -> Unit, pick: nat -> FunctionIndex)

  /** What random.random() returns: a number in [0, 1). */
  type Unit = u: real | 0.0 <= u < 1.0

  /** What random.randrange(0, 7, 1) returns: an index into Functions. */
  type FunctionIndex = i: nat | i < FunctionCount

  /** Python's math.ceil on a real. */
  function Ceil(r: real): (n: int)
    ensures r <= n as real < r + 1.0
  {
    -((-r).Floor)
  }

  /** The child maximum depth min + ceil(u * (max - min)) - 1 drawn for each
      argument of an inner node. With u in [0, 1) the larger of the child's
      two depth bounds is below the larger of the parent's, which is why the
      recursion ends even when min_depth exceeds max_depth. */
  function ChildMaxDepth(minDepth: int, maxDepth: int, u: Unit): (c: int)
    ensures Max(minDepth - 1, c) < Max(minDepth, maxDepth)
  {
    minDepth + ScaledCeil(u, maxDepth - minDepth) - 1
  }

  /** ceil(u * k) for u in [0, 1) lies between 0 and k, reaching 0 but
      never k when k is negative. */
  function ScaledCeil(u: Unit, k: int): (n: int)
    ensures 0 <= k ==> 0 <= n <= k
    ensures k < 0 ==> k < n <= 0
  {
    ScaledByUnit(u, k as real);
    Ceil(u * k as real)
  }

  /** With u in [0, 1) the child maximum lies in [min - 1, max - 1] when
      min <= max, and in [max, min - 1] otherwise. */
  lemma ChildMaxDepthRange(minDepth: int, maxDepth: int, u: Unit)
    ensures var c := ChildMaxDepth(minDepth, maxDepth, u);
            (minDepth <= maxDepth ==> minDepth - 1 <= c <= maxDepth - 1) &&
            (maxDepth < minDepth ==> maxDepth <= c <= minDepth - 1)
  {
  }

  /** Scaling by u in [0, 1) moves a number towards 0 without reaching past it. */
  lemma ScaledByUnit(u: Unit, k: real)
    ensures 0.0 <= k ==> 0.0 <= u * k <= k
    ensures k < 0.0 ==> k < u * k <= 0.0
  {
  }

  /** A built tree and the position of the first draw it did not use. */
  datatype Built = Built(tree: Term, next: nat)

  /** build_random_function(min_depth, max_depth), reading its draws from
      position pos on. Below depth 2 it returns x or y according to one draw;
      from depth 2 on it builds an inner node. Every call consumes at least
      one draw. */
  function Build(d: Draws, pos: nat, minDepth: int, maxDepth: int): (b: Built)
    ensures pos < b.next
    decreases Max(Max(minDepth, maxDepth), 0), 1
  {
    if maxDepth < 2 then
      Built(if d.unit(pos) > 0.5 then X else Y, pos + 1)
    else
      BuildNode(d, pos, minDepth, maxDepth)
  }

  /** The inner-node part of build_random_function: it picks an operator,
      draws a child maximum depth, and for sigmoid, cos_pi and sin_pi builds
      one argument with it; for every other operator it draws a second child
      maximum depth and builds both arguments with that second one. */
  function BuildNode(d: Draws, pos: nat, minDepth: int, maxDepth: int): (b: Built)
    requires 2 <= maxDepth
    ensures pos < b.next
    decreases Max(Max(minDepth, maxDepth), 0), 0
  {
    var op := Functions[d.pick(pos)];
    var maxDepth1 := ChildMaxDepth(minDepth, maxDepth, d.unit(pos + 1));
    if TakesOneChild(op) then
      var a := Build(d, pos + 2, minDepth - 1, maxDepth1);
      Built(Un(op, a.tree), a.next)
    else
      var maxDepth2 := ChildMaxDepth(minDepth, maxDepth, d.unit(pos + 2));
      var l := Build(d, pos + 3, minDepth - 1, maxDepth2);
      var r := Build(d, l.next, minDepth - 1, maxDepth2);
      Built(Bin(op, l.tree, r.tree), r.next)
  }

  /** The result has the builder's shape and spends exactly the draws its
      shape calls for. */
  lemma {:induction false} BuildShapeAndDraws(d: Draws, pos: nat, minDepth: int, maxDepth: int)
    ensures var b := Build(d, pos, minDepth, maxDepth);
            Shaped(b.tree) && b.next == pos + DrawCount(b.tree)
    decreases Max(Max(minDepth, maxDepth), 0), 1
  {
    if 2 <= maxDepth {
      NodeShapeAndDraws(d, pos, minDepth, maxDepth);
    }
  }

  lemma {:induction false} NodeShapeAndDraws(d: Draws, pos: nat, minDepth: int, maxDepth: int)
    requires 2 <= maxDepth
    ensures var b := BuildNode(d, pos, minDepth, maxDepth);
            Shaped(b.tree) && b.next == pos + DrawCount(b.tree)
    decreases Max(Max(minDepth, maxDepth), 0), 0
  {
    var b := BuildNode(d, pos, minDepth, maxDepth);
    var op := Functions[d.pick(pos)];
    var maxDepth1 := ChildMaxDepth(minDepth, maxDepth, d.unit(pos + 1));
    if TakesOneChild(op) {
      var a := Build(d, pos + 2, minDepth - 1, maxDepth1);
      BuildShapeAndDraws(d, pos + 2, minDepth - 1, maxDepth1);
      assert b == Built(Un(op, a.tree), a.next);
    } else {
      var maxDepth2 := ChildMaxDepth(minDepth, maxDepth, d.unit(pos + 2));
      var l := Build(d, pos + 3, minDepth - 1, maxDepth2);
      var r := Build(d, l.next, minDepth - 1, maxDepth2);
      BuildShapeAndDraws(d, pos + 3, minDepth - 1, maxDepth2);
      BuildShapeAndDraws(d, l.next, minDepth - 1, maxDepth2);
      assert b == Built(Bin(op, l.tree, r.tree), r.next);
    }
  }

  /** The depth bounds the builder promises: when min_depth <= max_depth the
      tree's depth is at least min_depth and at most max_depth (at most 1 when
      max_depth is below 1, since a leaf has depth 1). Whatever the two
      bounds, the depth never exceeds the larger of them (nor 1). */
  lemma {:induction false} BuildDepthBounds(d: Draws, pos: nat, minDepth: int, maxDepth: int)
    ensures var t := Build(d, pos, minDepth, maxDepth).tree;
            minDepth <= maxDepth ==> minDepth <= Depth(t) <= Max(maxDepth, 1)
    ensures Depth(Build(d, pos, minDepth, maxDepth).tree) <= Max(Max(minDepth, maxDepth), 1)
    decreases Max(Max(minDepth, maxDepth), 0), 1
  {
    if 2 <= maxDepth {
      NodeDepthBounds(d, pos, minDepth, maxDepth);
    }
  }

  lemma {:induction false} NodeDepthBounds(d: Draws, pos: nat, minDepth: int, maxDepth: int)
    requires 2 <= maxDepth
    ensures var t := BuildNode(d, pos, minDepth, maxDepth).tree;
            minDepth <= maxDepth ==> minDepth <= Depth(t) <= maxDepth
    ensures Depth(BuildNode(d, pos, minDepth, maxDepth).tree) <= Max(minDepth, maxDepth)
    decreases Max(Max(minDepth, maxDepth), 0), 0
  {
    var t := BuildNode(d, pos, minDepth, maxDepth).tree;
    var op := Functions[d.pick(pos)];
    var maxDepth1 := ChildMaxDepth(minDepth, maxDepth, d.unit(pos + 1));
    ChildMaxDepthRange(minDepth, maxDepth, d.unit(pos + 1));
    if TakesOneChild(op) {
      var a := Build(d, pos + 2, minDepth - 1, maxDepth1);
      BuildDepthBounds(d, pos + 2, minDepth - 1, maxDepth1);
      assert Depth(a.tree) < Max(minDepth, maxDepth);
      assert t == Un(op, a.tree);
    } else {
      var maxDepth2 := ChildMaxDepth(minDepth, maxDepth, d.unit(pos + 2));
      ChildMaxDepthRange(minDepth, maxDepth, d.unit(pos + 2));
      var l := Build(d, pos + 3, minDepth - 1, maxDepth2);
      var r := Build(d, l.next, minDepth - 1, maxDepth2);
      BuildDepthBounds(d, pos + 3, minDepth - 1, maxDepth2);
      BuildDepthBounds(d, l.next, minDepth - 1, maxDepth2);
      assert Depth(l.tree) < Max(minDepth, maxDepth) && Depth(r.tree) < Max(minDepth, maxDepth);
      assert t == Bin(op, l.tree, r.tree);
    }
  }

  /** Below depth 2 the result is a single variable, x exactly when the one
      draw it reads exceeds 0.5. */
  lemma BuildLeaf(d: Draws, pos: nat, minDepth: int, maxDepth: int)
    requires maxDepth < 2
    ensures var b := Build(d, pos, minDepth, maxDepth);
            (b.tree == X || b.tree == Y) && (b.tree == X <==> d.unit(pos) > 0.5) && b.next == pos + 1
  {
  }

  /** From depth 2 on, the root is the operator the first draw picks; it has
      one argument exactly for sigmoid, cos_pi and sin_pi, so squared and
      cubed nodes get two. */
  lemma BuildRoot(d: Draws, pos: nat, minDepth: int, maxDepth: int)
    requires 2 <= maxDepth
    ensures var t := Build(d, pos, minDepth, maxDepth).tree;
            (t.Un? || t.Bin?) && t.op == Functions[d.pick(pos)] &&
            (t.Un? <==> t.op in {Sigmoid, CosPi, SinPi})
  {
  }

  /** Every draw is 0.5 and every operator choice is 'prod'. */
  ghost predicate AllHalves(d: Draws) {
    (forall i :: d.unit(i) == 0.5) && (forall i :: d.pick(i) == 0)
  }

  /** The maximum depth build_random_function(k, _) receives at level k of
      build_random_function(5, 2) when every draw is 0.5. */
  function HalfChainMax(k: int): int {
    if k == 5 then 2 else if k == 4 || k == 3 then 3 else if k == 2 then 2 else 1
  }

  /** With draw 0.5 at level k the child maximum depth is the one level k - 1
      receives. */
  lemma HalfChildMax(k: int)
    requires 2 <= k <= 5
    ensures ChildMaxDepth(k, HalfChainMax(k), 0.5) == HalfChainMax(k - 1)
  {
  }

  /** When every draw is 0.5, every inner node is a product whose two
      arguments are one level shallower, down to the leaves at level 1. */
  lemma {:induction false} HalfDrawsDepth(d: Draws, p: nat, k: int)
    requires AllHalves(d) && 1 <= k <= 5
    ensures Depth(Build(d, p, k, HalfChainMax(k)).tree) == k
    decreases k, 1
  {
    if 2 <= k {
      HalfNodeDepth(d, p, k);
    }
  }

  lemma {:induction false} HalfNodeDepth(d: Draws, p: nat, k: int)
    requires AllHalves(d) && 2 <= k <= 5
    ensures Depth(BuildNode(d, p, k, HalfChainMax(k)).tree) == k
    decreases k, 0
  {
    HalfChildMax(k);
    assert d.pick(p) == 0 && d.unit(p + 2) == 0.5 && Functions[0] == Prod;
    var l := Build(d, p + 3, k - 1, HalfChainMax(k - 1));
    var r := Build(d, l.next, k - 1, HalfChainMax(k - 1));
    HalfDrawsDepth(d, p + 3, k - 1);
    HalfDrawsDepth(d, l.next, k - 1);
    assert BuildNode(d, p, k, HalfChainMax(k)).tree == Bin(Prod, l.tree, r.tree);
  }


  /** When min_depth exceeds max_depth the bound max_depth no longer holds:
      build_random_function(5, 2) returns a tree of depth 5 when every draw
      is 0.5 and every operator choice is 'prod'. */
  lemma BuildDepthExceedsMax()
    ensures var d := Draws(i => 0.5, i => 0);
            Depth(Build(d, 0, 5, 2).tree) == 5
  {
    var d := Draws(i => 0.5, i => 0);
    assert AllHalves(d);
    HalfDrawsDepth(d, 0, 5);
  }

  /** d and e return the same draws at every position in [lo, hi). */
  ghost predicate Agree(d: Draws, e: Draws, lo: nat, hi: nat) {
    && (forall i :: lo <= i < hi ==> d.unit(i) == e.unit(i))
    && (forall i :: lo <= i < hi ==> d.pick(i) == e.pick(i))
  }

  /** The builder reads no draw outside the ones it consumes: two sources that
      agree on those positions build the same tree, so a replayed source
      rebuilds the same function. */
  lemma {:induction false} BuildReadsOnlyItsDraws(d: Draws, e: Draws, pos: nat, minDepth: int, maxDepth: int)
    requires Agree(d, e, pos, Build(d, pos, minDepth, maxDepth).next)
    ensures Build(e, pos, minDepth, maxDepth) == Build(d, pos, minDepth, maxDepth)
    decreases Max(Max(minDepth, maxDepth), 0), 1
  {
    if maxDepth < 2 {
      assert d.unit(pos) == e.unit(pos);
    } else {
      NodeReadsOnlyItsDraws(d, e, pos, minDepth, maxDepth);
    }
  }

  lemma {:induction false} NodeReadsOnlyItsDraws(d: Draws, e: Draws, pos: nat, minDepth: int, maxDepth: int)
    requires 2 <= maxDepth
    requires Agree(d, e, pos, BuildNode(d, pos, minDepth, maxDepth).next)
    ensures BuildNode(e, pos, minDepth, maxDepth) == BuildNode(d, pos, minDepth, maxDepth)
    decreases Max(Max(minDepth, maxDepth), 0), 0
  {
    var b := BuildNode(d, pos, minDepth, maxDepth);
    assert d.pick(pos) == e.pick(pos) && d.unit(pos + 1) == e.unit(pos + 1);
    var op := Functions[d.pick(pos)];
    var maxDepth1 := ChildMaxDepth(minDepth, maxDepth, d.unit(pos + 1));
    assert maxDepth1 == ChildMaxDepth(minDepth, maxDepth, e.unit(pos + 1));
    if TakesOneChild(op) {
      var a := Build(d, pos + 2, minDepth - 1, maxDepth1);
      assert b == Built(Un(op, a.tree), a.next);
      BuildReadsOnlyItsDraws(d, e, pos + 2, minDepth - 1, maxDepth1);
      assert BuildNode(e, pos, minDepth, maxDepth) == Built(Un(op, a.tree), a.next);
    } else {
      assert d.unit(pos + 2) == e.unit(pos + 2);
      var maxDepth2 := ChildMaxDepth(minDepth, maxDepth, d.unit(pos + 2));
      assert maxDepth2 == ChildMaxDepth(minDepth, maxDepth, e.unit(pos + 2));
      var l := Build(d, pos + 3, minDepth - 1, maxDepth2);
      var r := Build(d, l.next, minDepth - 1, maxDepth2);
      assert b == Built(Bin(op, l.tree, r.tree), r.next);
      BuildReadsOnlyItsDraws(d, e, pos + 3, minDepth - 1, maxDepth2);
      BuildReadsOnlyItsDraws(d, e, l.next, minDepth - 1, maxDepth2);
      assert BuildNode(e, pos, minDepth, maxDepth) == Built(Bin(op, l.tree, r.tree), r.next);
    }
  }

  /** On the two-argument path the first child maximum depth is drawn but not
      used: changing that draw leaves the tree unchanged. */
  lemma FirstChildDepthUnusedForTwoChildren(d: Draws, e: Draws, pos: nat, minDepth: int, maxDepth: int)
    requires 2 <= maxDepth
    requires !TakesOneChild(Functions[d.pick(pos)])
    requires forall i :: i != pos + 1 ==> d.unit(i) == e.unit(i) && d.pick(i) == e.pick(i)
    ensures Build(e, pos, minDepth, maxDepth) == Build(d, pos, minDepth, maxDepth)
  {
    assert d.pick(pos) == e.pick(pos) && d.unit(pos + 2) == e.unit(pos + 2);
    var maxDepth2 := ChildMaxDepth(minDepth, maxDepth, d.unit(pos + 2));
    var l := Build(d, pos + 3, minDepth - 1, maxDepth2);
    BuildReadsOnlyItsDraws(d, e, pos + 3, minDepth - 1, maxDepth2);
    BuildReadsOnlyItsDraws(d, e, l.next, minDepth - 1, maxDepth2);
  }
}
