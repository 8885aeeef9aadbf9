/** Red-black trees as values: the reference definitions that the in-place
    algorithms of src/lc_rbt.c are proved against.

    A tree value names the nodes that occupy its positions, so two trees with
    the same keys but different node identities differ.  A position inside a
    tree is a context (the tree with one subtree missing); the upward loops of
    the source walk along it. */
module RbSpec {

  datatype Color = Black | Red

  datatype Dir = Left | Right

  /** The intrusive node.  The shared sentinel that ends every branch is a node
      too; the tree that owns it says so. */
  class RbNode {
    const key: int
    var parent: RbNode
    var left: RbNode
    var right: RbNode
    var thread: RbNode
    var color: Color

    /** A node with every link leading to `end`. */
    constructor (k: int, end: RbNode)
      ensures key == k && parent == end && left == end && right == end && thread == end && color == Red
    {
      key := k;
      parent, left, right, thread, color := end, end, end, end, Red;
    }

    /** The sentinel: black, and linked to itself in every direction. */
    constructor Sentinel()
      ensures parent == this && left == this && right == this && thread == this && color == Black
    {
      key := 0;
      parent, left, right, thread, color := this, this, this, this, Black;
    }
  }

  datatype Tree = Nil | Node(left: Tree, node: RbNode, color: Color, right: Tree)

  /** A tree with a hole: the hole is the `dir` child of `node`, whose other
      child is `sibling`. */
  datatype Ctx = Top | In(up: Ctx, dir: Dir, node: RbNode, color: Color, sibling: Tree)

  function Flip(d: Dir): Dir {
    if d == Left then Right else Left
  }

  function Child(t: Tree, d: Dir): Tree
    requires t.Node?
  {
    if d == Left then t.left else t.right
  }

  /** The node `n` with `near` as its `d` child and `far` as the other one. */
  function Join(d: Dir, n: RbNode, c: Color, near: Tree, far: Tree): Tree {
    if d == Left then Node(near, n, c, far) else Node(far, n, c, near)
  }

  function Plug(ctx: Ctx, t: Tree): Tree {
    match ctx
    case Top => t
    case In(up, d, n, c, s) => Plug(up, Join(d, n, c, t, s))
  }

  function ColorOf(t: Tree): Color {
    if t.Nil? then Black else t.color
  }

  function Paint(t: Tree, c: Color): Tree {
    if t.Nil? then t else t.(color := c)
  }

  function Nodes(t: Tree): set<RbNode> {
    if t.Nil? then {} else Nodes(t.left) + {t.node} + Nodes(t.right)
  }

  function CtxNodes(ctx: Ctx): set<RbNode> {
    if ctx.Top? then {} else CtxNodes(ctx.up) + {ctx.node} + Nodes(ctx.sibling)
  }

  function InOrder(t: Tree): seq<RbNode> {
    if t.Nil? then [] else InOrder(t.left) + [t.node] + InOrder(t.right)
  }

  /** The nodes that precede the hole, in order. */
  function Before(ctx: Ctx): seq<RbNode> {
    match ctx
    case Top => []
    case In(up, d, n, c, s) => if d == Left then Before(up) else Before(up) + InOrder(s) + [n]
  }

  /** The nodes that follow the hole, in order. */
  function After(ctx: Ctx): seq<RbNode> {
    match ctx
    case Top => []
    case In(up, d, n, c, s) => if d == Right then After(up) else [n] + InOrder(s) + After(up)
  }

  ghost predicate Sorted(s: seq<RbNode>) {
    forall i, j :: 0 <= i < j < |s| ==> s[i].key < s[j].key
  }

  // ---------- balance ----------

  function Lower(c: Color): nat {
    if c == Black then 1 else 0
  }

  /** No red node has a red child, and every path to a leaf meets `h` black nodes. */
  predicate Balanced(t: Tree, h: int) {
    if t.Nil? then h == 0
    else
      && Balanced(t.left, h - Lower(t.color))
      && Balanced(t.right, h - Lower(t.color))
      && (t.color == Red ==> ColorOf(t.left) == Black && ColorOf(t.right) == Black)
  }

  /** A balanced tree of black height `h` whose root has colour `c` may fill the hole. */
  predicate Accepts(ctx: Ctx, c: Color, h: int) {
    match ctx
    case Top => c == Black
    case In(up, d, n, nc, s) =>
      && Balanced(s, h)
      && (nc == Red ==> c == Black && ColorOf(s) == Black)
      && Accepts(up, nc, h + Lower(nc))
  }

  function BlackHeight(t: Tree): nat {
    if t.Nil? then 0 else BlackHeight(t.left) + Lower(t.color)
  }

  predicate RedBlack(t: Tree) {
    ColorOf(t) == Black && Balanced(t, BlackHeight(t))
  }

  lemma BalancedHeight(t: Tree, h: int)
    requires Balanced(t, h)
    ensures h == BlackHeight(t)
  {
  }

  lemma {:induction false} PlugInOrder(ctx: Ctx, t: Tree)
    ensures InOrder(Plug(ctx, t)) == Before(ctx) + InOrder(t) + After(ctx)
  {
    match ctx
    case Top =>
    case In(up, d, n, c, s) => PlugInOrder(up, Join(d, n, c, t, s));
  }

  lemma {:induction false} PlugNodes(ctx: Ctx, t: Tree)
    ensures Nodes(Plug(ctx, t)) == CtxNodes(ctx) + Nodes(t)
  {
    match ctx
    case Top =>
    case In(up, d, n, c, s) => PlugNodes(up, Join(d, n, c, t, s));
  }

  lemma {:induction false} PlugIsNode(ctx: Ctx, t: Tree)
    requires t.Node?
    ensures Plug(ctx, t).Node?
  {
    if ctx.In? { PlugIsNode(ctx.up, Join(ctx.dir, ctx.node, ctx.color, t, ctx.sibling)); }
  }

  lemma {:induction false} PlugBalanced(ctx: Ctx, t: Tree, h: int)
    requires Balanced(t, h) && Accepts(ctx, ColorOf(t), h)
    ensures RedBlack(Plug(ctx, t))
  {
    match ctx
    case Top => BalancedHeight(t, h);
    case In(up, d, n, c, s) => PlugBalanced(up, Join(d, n, c, t, s), h + Lower(c));
  }

  /** Conversely, any position of a red-black tree splits it into a balanced
      subtree and a context that accepts it. */
  lemma {:induction false} UnplugBalanced(ctx: Ctx, t: Tree)
    requires RedBlack(Plug(ctx, t))
    ensures Balanced(t, BlackHeight(t)) && Accepts(ctx, ColorOf(t), BlackHeight(t))
  {
    match ctx
    case Top =>
    case In(up, d, n, c, s) =>
      var whole := Join(d, n, c, t, s);
      UnplugBalanced(up, whole);
      BalancedHeight(t, BlackHeight(whole) - Lower(c));
  }

  lemma Regrouped(a: seq<RbNode>, b: seq<RbNode>, x: RbNode, c: seq<RbNode>, d: seq<RbNode>)
    ensures a + b + ([x] + c + d) == a + (b + [x] + c) + d
    ensures a + b + [x] + c + d == a + (b + [x] + c) + d
  {
  }

  /** One step of Plug leaves the sequence of nodes alone. */
  lemma {:induction false} FrameInOrder(up: Ctx, d: Dir, n: RbNode, c: Color, s: Tree, t: Tree)
    ensures var ctx := In(up, d, n, c, s);
            Before(ctx) + InOrder(t) + After(ctx) == Before(up) + InOrder(Join(d, n, c, t, s)) + After(up)
  {
    if d == Left {
      Regrouped(Before(up), InOrder(t), n, InOrder(s), After(up));
    } else {
      Regrouped(Before(up), InOrder(s), n, InOrder(t), After(up));
    }
  }

  /** A rotation, in either direction and whatever the colours, keeps the order. */
  lemma {:induction false} RotateInOrder(d: Dir, x: RbNode, y: RbNode, c1: Color, c2: Color, c3: Color, c4: Color, a: Tree, b: Tree, e: Tree)
    ensures InOrder(Join(d, y, c1, Join(d, x, c2, a, b), e)) == InOrder(Join(d, x, c3, a, Join(d, y, c4, b, e)))
  {
    var i, j, k := InOrder(a), InOrder(b), InOrder(e);
    if d == Left {
      assert i + [x] + j + [y] + k == i + [x] + (j + [y] + k);
    } else {
      assert k + [y] + (j + [x] + i) == k + [y] + j + [x] + i;
    }
  }

  // ---------- insertion ----------

  predicate RootBlack(ctx: Ctx) {
    match ctx
    case Top => true
    case In(up, d, n, c, s) => if up.Top? then c == Black else RootBlack(up)
  }

  /** The outcome of the recolour-and-rotate loop started at the red tree `t`. */
  function FixUp(ctx: Ctx, t: Tree): Tree
    requires t.Node? && RootBlack(ctx)
  {
    if ctx.Top? || ctx.color == Black then Paint(Plug(ctx, t), Black)
    else
      var In(grand, d, p, _, s) := ctx;
      assert RootBlack(grand);
      var In(up, gd, g, _, uncle) := grand;
      if ColorOf(uncle) == Red then
        FixUp(up, Join(gd, g, Red, Join(d, p, Black, t, s), Paint(uncle, Black)))
      else Paint(Plug(up, Lifted(gd, g, uncle, d, p, s, t)), Black)
  }

  /** The one or two rotations that end the loop put the parent, or the red
      tree's own root, above the grandparent. */
  function Lifted(gd: Dir, g: RbNode, uncle: Tree, d: Dir, p: RbNode, s: Tree, t: Tree): Tree
    requires t.Node?
  {
    if d == gd then Join(gd, p, Black, t, Join(gd, g, Red, s, uncle))
    else Join(gd, t.node, Black, Join(gd, p, Red, s, Child(t, gd)), Join(gd, g, Red, Child(t, d), uncle))
  }

  /** The position of the loop after the rotations: below a black parent. */
  function Settled(up: Ctx, gd: Dir, top: Tree): Ctx
    requires top.Node?
  {
    In(up, gd, top.node, Black, Child(top, Flip(gd)))
  }

  lemma {:induction false} LiftedStep(up: Ctx, gd: Dir, g: RbNode, gc: Color, u: Tree, d: Dir, p: RbNode, s: Tree, t: Tree)
    requires t.Node? && ColorOf(u) == Black && RootBlack(In(In(up, gd, g, gc, u), d, p, Red, s))
    ensures var top := Lifted(gd, g, u, d, p, s, t);
            && Child(top, gd).Node? && top.color == Black && RootBlack(Settled(up, gd, top))
            && Child(top, gd).color == (if d == gd then t.color else Red)
            && FixUp(Settled(up, gd, top), Child(top, gd)) == FixUp(In(In(up, gd, g, gc, u), d, p, Red, s), t)
  {
    assert RootBlack(In(up, gd, g, gc, u));
    var top := Lifted(gd, g, u, d, p, s, t);
    assert Join(gd, top.node, Black, Child(top, gd), Child(top, Flip(gd))) == top;
  }

  lemma PaintInOrder(t: Tree, c: Color)
    ensures InOrder(Paint(t, c)) == InOrder(t)
  {
  }

  lemma {:induction false} FixUpInOrder(ctx: Ctx, t: Tree)
    requires t.Node? && RootBlack(ctx)
    ensures InOrder(FixUp(ctx, t)) == Before(ctx) + InOrder(t) + After(ctx)
    decreases ctx
  {
    if ctx.Top? || ctx.color == Black {
      PlugInOrder(ctx, t);
    } else {
      var In(grand, d, p, c, s) := ctx;
      FrameInOrder(grand, d, p, c, s, t);
      assert RootBlack(grand);
      var In(up, gd, g, gc, uncle) := grand;
      var parent := Join(d, p, c, t, s);
      FrameInOrder(up, gd, g, gc, uncle, parent);
      if ColorOf(uncle) == Red {
        FixUpInOrder(up, Join(gd, g, Red, Join(d, p, Black, t, s), Paint(uncle, Black)));
      } else if d == gd {
        RotateInOrder(d, p, g, gc, c, Black, Red, t, s, uncle);
        PlugInOrder(up, Lifted(gd, g, uncle, d, p, s, t));
      } else {
        var near := Join(gd, p, Red, s, Child(t, gd));
        RotateInOrder(d, t.node, p, c, t.color, t.color, Red, Child(t, d), Child(t, gd), s);
        RotateInOrder(gd, t.node, g, gc, t.color, Black, Red, near, Child(t, d), uncle);
        PlugInOrder(up, Lifted(gd, g, uncle, d, p, s, t));
      }
    }
  }

  /** What the loop keeps: the only defect allowed is a red parent above the red tree. */
  predicate Almost(ctx: Ctx, h: int) {
    match ctx
    case Top => true
    case In(up, d, n, c, s) =>
      && Balanced(s, h)
      && (c == Red ==> ColorOf(s) == Black)
      && Accepts(up, c, h + Lower(c))
  }

  lemma AcceptsFacts(ctx: Ctx, c: Color, h: int)
    requires Accepts(ctx, c, h)
    ensures RootBlack(ctx) && Almost(ctx, h) && Accepts(ctx, Black, h)
  {
  }

  lemma {:induction false} FixUpBalanced(ctx: Ctx, t: Tree, h: int)
    requires t.Node? && t.color == Red && Balanced(t, h) && Almost(ctx, h) && RootBlack(ctx)
    ensures RedBlack(FixUp(ctx, t))
    decreases ctx
  {
    if ctx.Top? {
      BalancedHeight(Paint(t, Black), h + 1);
    } else if ctx.color == Black {
      PlugBalanced(ctx, t, h);
    } else {
      var In(grand, d, p, _, s) := ctx;
      assert RootBlack(grand);
      var In(up, gd, g, _, uncle) := grand;
      AcceptsFacts(up, Black, h + 1);
      if ColorOf(uncle) == Red {
        FixUpBalanced(up, Join(gd, g, Red, Join(d, p, Black, t, s), Paint(uncle, Black)), h + 1);
      } else {
        PlugBalanced(up, Lifted(gd, g, uncle, d, p, s, t), h + 1);
      }
    }
  }

  // ---------- deletion: the six cases ----------

  function Depth(ctx: Ctx): nat {
    if ctx.Top? then 0 else 1 + Depth(ctx.up)
  }

  /** The fix-up never touches the subtree it starts from: it turns a context
      whose hole is one black node short into one whose hole is not.  `h` is the
      black height left at the hole. */
  function Rm1(ctx: Ctx, h: int): Ctx
    requires Accepts(ctx, Black, h + 1) && h >= 0
    decreases Depth(ctx), 2
  {
    if ctx.Top? then Top else Rm2(ctx, h)
  }

  /** A red sibling is rotated over the parent, which turns red. */
  function Lowered(ctx: Ctx): Ctx
    requires ctx.In? && ctx.sibling.Node?
  {
    var In(up, d, p, pc, sib) := ctx;
    In(In(up, d, sib.node, Black, Child(sib, Flip(d))), d, p, Red, Child(sib, d))
  }

  lemma LoweredAccepts(ctx: Ctx, h: int)
    requires ctx.In? && Accepts(ctx, Black, h + 1) && h >= 0 && ColorOf(ctx.sibling) == Red
    ensures Accepts(Lowered(ctx), Black, h + 1) && ColorOf(Lowered(ctx).sibling) == Black
  {
  }

  function Rm2(ctx: Ctx, h: int): Ctx
    requires ctx.In? && Accepts(ctx, Black, h + 1) && h >= 0
    decreases Depth(ctx), 1
  {
    if ColorOf(ctx.sibling) == Red then
      LoweredAccepts(ctx, h);
      Rm3(Lowered(ctx), h)
    else
      Rm3(ctx, h)
  }

  function Rm3(ctx: Ctx, h: int): Ctx
    requires ctx.In? && Accepts(ctx, Black, h + 1) && h >= 0 && ColorOf(ctx.sibling) == Black
    decreases if ctx.color == Red then 0 else Depth(ctx), 0
  {
    var In(up, d, p, pc, sib) := ctx;
    if pc == Black && ColorOf(sib.left) == Black && ColorOf(sib.right) == Black then
      In(Rm1(up, h + 1), d, p, Black, Paint(sib, Red))
    else Rm4(ctx, h)
  }

  function Rm4(ctx: Ctx, h: int): Ctx
    requires ctx.In? && Accepts(ctx, Black, h + 1) && h >= 0 && ColorOf(ctx.sibling) == Black
    requires ctx.color == Red || ColorOf(ctx.sibling.left) == Red || ColorOf(ctx.sibling.right) == Red
  {
    var In(up, d, p, pc, sib) := ctx;
    if pc == Red && ColorOf(sib.left) == Black && ColorOf(sib.right) == Black then
      In(up, d, p, Black, Paint(sib, Red))
    else Rm5(ctx, h)
  }

  function Rm5(ctx: Ctx, h: int): Ctx
    requires ctx.In? && Accepts(ctx, Black, h + 1) && h >= 0 && ColorOf(ctx.sibling) == Black
    requires ColorOf(ctx.sibling.left) == Red || ColorOf(ctx.sibling.right) == Red
  {
    var In(up, d, p, pc, sib) := ctx;
    var near, far := Child(sib, d), Child(sib, Flip(d));
    if ColorOf(near) == Red && ColorOf(far) == Black then
      Rm6(ctx.(sibling := Join(d, near.node, Black, Child(near, d),
                               Join(d, sib.node, Red, Child(near, Flip(d)), far))))
    else Rm6(ctx)
  }

  function Rm6(ctx: Ctx): Ctx
    requires ctx.In? && ctx.sibling.Node? && Child(ctx.sibling, Flip(ctx.dir)).Node?
  {
    var In(up, d, p, pc, sib) := ctx;
    In(In(up, d, sib.node, pc, Paint(Child(sib, Flip(d)), Black)), d, p, Black, Child(sib, d))
  }

  /** Whole-tree meaning of the fix-up: whatever fills the hole, the sequence of
      nodes is the same. */
  predicate SameOrder(c1: Ctx, c2: Ctx) {
    Before(c1) == Before(c2) && After(c1) == After(c2)
  }

  /** Rotating the parent towards the hole lifts the sibling above it. */
  lemma {:induction false} LiftOrder(up: Ctx, d: Dir, p: RbNode, pc: Color, s: RbNode, sc: Color,
                                     near: Tree, far: Tree, c1: Color, c2: Color)
    ensures SameOrder(In(up, d, p, pc, Join(d, s, sc, near, far)), In(In(up, d, s, c1, far), d, p, c2, near))
  {
    var i, k := InOrder(near), InOrder(far);
    var before, after := Before(up), After(up);
    if d == Left {
      assert InOrder(Join(d, s, sc, near, far)) == i + [s] + k;
      assert [p] + (i + [s] + k) + after == [p] + i + ([s] + k + after);
    } else {
      assert InOrder(Join(d, s, sc, near, far)) == k + [s] + i;
      assert before + (k + [s] + i) + [p] == before + k + [s] + i + [p];
    }
  }

  lemma {:induction false} Rm6Order(ctx: Ctx)
    requires ctx.In? && ctx.sibling.Node? && Child(ctx.sibling, Flip(ctx.dir)).Node?
    ensures SameOrder(ctx, Rm6(ctx))
  {
    var In(up, d, p, pc, sib) := ctx;
    var near, far := Child(sib, d), Child(sib, Flip(d));
    PaintInOrder(far, Black);
    LiftOrder(up, d, p, pc, sib.node, sib.color, near, Paint(far, Black), pc, Black);
  }

  lemma {:induction false} Rm5Order(ctx: Ctx, h: int)
    requires ctx.In? && Accepts(ctx, Black, h + 1) && h >= 0 && ColorOf(ctx.sibling) == Black
    requires ColorOf(ctx.sibling.left) == Red || ColorOf(ctx.sibling.right) == Red
    ensures SameOrder(ctx, Rm5(ctx, h))
  {
    var In(up, d, p, pc, sib) := ctx;
    var near, far := Child(sib, d), Child(sib, Flip(d));
    if ColorOf(near) == Red && ColorOf(far) == Black {
      RotateInOrder(d, near.node, sib.node, Black, Red, Black, Red, Child(near, d), Child(near, Flip(d)), far);
      Rm6Order(ctx.(sibling := Join(d, near.node, Black, Child(near, d),
                                    Join(d, sib.node, Red, Child(near, Flip(d)), far))));
    } else {
      Rm6Order(ctx);
    }
  }

  lemma {:induction false} Rm3Order(ctx: Ctx, h: int)
    requires ctx.In? && Accepts(ctx, Black, h + 1) && h >= 0 && ColorOf(ctx.sibling) == Black
    ensures SameOrder(ctx, Rm3(ctx, h))
    decreases if ctx.color == Red then 0 else Depth(ctx), 0
  {
    var In(up, d, p, pc, sib) := ctx;
    PaintInOrder(sib, Red);
    if ColorOf(sib.left) == Black && ColorOf(sib.right) == Black {
      if pc == Black { Rm1Order(up, h + 1); }
    } else {
      Rm5Order(ctx, h);
    }
  }

  lemma {:induction false} Rm1Order(ctx: Ctx, h: int)
    requires Accepts(ctx, Black, h + 1) && h >= 0
    ensures SameOrder(ctx, Rm1(ctx, h))
    decreases Depth(ctx), 2
  {
    if ctx.In? {
      var In(up, d, p, pc, sib) := ctx;
      if ColorOf(sib) == Red {
        LiftOrder(up, d, p, pc, sib.node, Red, Child(sib, d), Child(sib, Flip(d)), Black, Red);
        LoweredAccepts(ctx, h);
        Rm3Order(Lowered(ctx), h);
      } else {
        Rm3Order(ctx, h);
      }
    }
  }

  lemma {:induction false} Rm6Balanced(ctx: Ctx, h: int)
    requires ctx.In? && ctx.sibling.Node? && ctx.sibling.color == Black && ColorOf(Child(ctx.sibling, Flip(ctx.dir))) == Red
    requires Balanced(Child(ctx.sibling, ctx.dir), h) && Balanced(Child(ctx.sibling, Flip(ctx.dir)), h)
    requires Accepts(ctx.up, ctx.color, h + 1 + Lower(ctx.color))
    ensures Rm6(ctx).In? && Accepts(Rm6(ctx), Red, h)
  {
    var far := Paint(Child(ctx.sibling, Flip(ctx.dir)), Black);
    assert Balanced(far, h + 1);
  }

  lemma {:induction false} Rm5Balanced(ctx: Ctx, h: int)
    requires ctx.In? && Accepts(ctx, Black, h + 1) && h >= 0 && ColorOf(ctx.sibling) == Black
    requires ColorOf(ctx.sibling.left) == Red || ColorOf(ctx.sibling.right) == Red
    ensures Rm5(ctx, h).In? && Accepts(Rm5(ctx, h), Red, h)
  {
    var In(up, d, p, pc, sib) := ctx;
    var near, far := Child(sib, d), Child(sib, Flip(d));
    assert Balanced(near, h) && Balanced(far, h);
    if ColorOf(near) == Red && ColorOf(far) == Black {
      Rm6Balanced(ctx.(sibling := Join(d, near.node, Black, Child(near, d),
                                       Join(d, sib.node, Red, Child(near, Flip(d)), far))), h);
    } else {
      Rm6Balanced(ctx, h);
    }
  }

  lemma {:induction false} Rm3Balanced(ctx: Ctx, h: int)
    requires ctx.In? && Accepts(ctx, Black, h + 1) && h >= 0 && ColorOf(ctx.sibling) == Black
    ensures Rm3(ctx, h).In? && Accepts(Rm3(ctx, h), Red, h)
    decreases if ctx.color == Red then 0 else Depth(ctx), 0
  {
    var In(up, d, p, pc, sib) := ctx;
    if ColorOf(sib.left) == Black && ColorOf(sib.right) == Black {
      if pc == Black {
        Rm1Balanced(up, h + 1);
        if up.In? { AcceptsFacts(Rm1(up, h + 1), Red, h + 1); }
      }
    } else {
      Rm5Balanced(ctx, h);
    }
  }

  lemma {:induction false} Rm1Balanced(ctx: Ctx, h: int)
    requires Accepts(ctx, Black, h + 1) && h >= 0
    ensures Rm1(ctx, h).Top? <==> ctx.Top?
    ensures ctx.In? ==> Accepts(Rm1(ctx, h), Red, h)
    decreases Depth(ctx), 2
  {
    if ctx.In? {
      var In(up, d, p, pc, sib) := ctx;
      if ColorOf(sib) == Red {
        LoweredAccepts(ctx, h);
        Rm3Balanced(Lowered(ctx), h);
      } else {
        Rm3Balanced(ctx, h);
      }
    }
  }
}
