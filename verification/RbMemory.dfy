/** The links of a tree's nodes at one moment, and what it means for them to
    hold a given tree.  The sentinel is never among the nodes that have links. */
module RbMemory {
  import opened Collections
  import opened RbSpec
  import opened RbLaws

  datatype Links = Links(parent: RbNode, left: RbNode, right: RbNode, color: Color)

  datatype Memory = Memory(nil: RbNode, root: RbNode, links: map<RbNode, Links>) {

    function Root(t: Tree): RbNode {
      if t.Nil? then nil else t.node
    }

    function Parent(ctx: Ctx): RbNode {
      if ctx.Top? then nil else ctx.node
    }

    // The writes of the source, as functions of the memory.

    function SetParent(n: RbNode, x: RbNode): Memory
      requires n in links
    {
      this.(links := links[n := links[n].(parent := x)])
    }

    function SetChild(n: RbNode, d: Dir, x: RbNode): Memory
      requires n in links
    {
      this.(links := links[n := if d == Left then links[n].(left := x) else links[n].(right := x)])
    }

    function SetColor(n: RbNode, c: Color): Memory
      requires n in links
    {
      this.(links := links[n := links[n].(color := c)])
    }

    /** The parent link of a subtree's root, if there is a root. */
    function Adopt(child: RbNode, p: RbNode): Memory
      requires child == nil || child in links
    {
      if child == nil then this else SetParent(child, p)
    }

    /** Whoever points at the hole of `ctx` points at `x` instead. */
    function Refill(ctx: Ctx, x: RbNode): Memory
      requires ctx.In? ==> ctx.node in links
    {
      if ctx.Top? then this.(root := x) else SetChild(ctx.node, ctx.dir, x)
    }

    /** A whole node copied over another. */
    function Copy(to: RbNode, from: RbNode): Memory
      requires from in links
    {
      this.(links := links[to := links[from]])
    }

    ghost predicate Same(m: Memory, n: RbNode) {
      n in links && n in m.links && links[n] == m.links[n]
    }

    /** `t` hangs below `p`. */
    ghost predicate Holds(t: Tree, p: RbNode) {
      t.Node? ==>
        && t.node in links && t.node != nil
        && links[t.node] == Links(p, Root(t.left), Root(t.right), t.color)
        && t.node !in Nodes(t.left) && t.node !in Nodes(t.right) && Nodes(t.left) !! Nodes(t.right)
        && Holds(t.left, t.node)
        && Holds(t.right, t.node)
    }

    /** Everything around a hole that `hole` fills. */
    ghost predicate Surrounds(ctx: Ctx, hole: RbNode) {
      if ctx.Top? then root == hole
      else
        && ctx.node in links && ctx.node != nil
        && links[ctx.node] == Links(Parent(ctx.up),
                                    if ctx.dir == Left then hole else Root(ctx.sibling),
                                    if ctx.dir == Left then Root(ctx.sibling) else hole,
                                    ctx.color)
        && ctx.node !in Nodes(ctx.sibling) && ctx.node !in CtxNodes(ctx.up) && Nodes(ctx.sibling) !! CtxNodes(ctx.up)
        && Holds(ctx.sibling, ctx.node)
        && Surrounds(ctx.up, ctx.node)
    }

    /** The whole memory is `ctx` with `t` in its hole. */
    ghost predicate At(ctx: Ctx, t: Tree) {
      Nodes(t) !! CtxNodes(ctx) && Holds(t, Parent(ctx)) && Surrounds(ctx, Root(t))
    }
  }

  /** A tree that is held repeats no node. */
  lemma {:induction false} NoRepeats(m: Memory, t: Tree, p: RbNode)
    requires m.Holds(t, p)
    ensures Distinct(InOrder(t))
  {
    if t.Node? {
      NoRepeats(m, t.left, t.node);
      NoRepeats(m, t.right, t.node);
      NodesInOrder(t.left);
      NodesInOrder(t.right);
      DistinctJoin(InOrder(t.left), t.node, InOrder(t.right));
    }
  }

  lemma DistinctJoin(a: seq<RbNode>, x: RbNode, b: seq<RbNode>)
    requires Distinct(a) && Distinct(b) && x !in a && x !in b && Members(a) !! Members(b)
    ensures Distinct(a + [x] + b)
  {
    var s := a + [x] + b;
    forall i, j | 0 <= i < j < |s| ensures s[i] != s[j] {
      if i < |a| && |a| < j { assert s[i] in Members(a) && s[j] in Members(b); }
    }
  }

  lemma {:induction false} FrameSame(m: Memory, m': Memory, t: Tree, p: RbNode)
    requires m.Holds(t, p) && m'.nil == m.nil
    requires forall n :: n in Nodes(t) ==> m'.Same(m, n)
    ensures m'.Holds(t, p)
  {
    if t.Node? {
      assert m'.Same(m, t.node);
      FrameSame(m, m', t.left, t.node);
      FrameSame(m, m', t.right, t.node);
    }
  }

  /** A tree whose nodes keep their links, save perhaps the link of its root
      to the parent, is still held. */
  lemma {:induction false} FrameTree(m: Memory, m': Memory, t: Tree, p: RbNode, p': RbNode)
    requires m.Holds(t, p) && m'.nil == m.nil
    requires forall n :: n in Nodes(t) && n != m.Root(t) ==> m'.Same(m, n)
    requires t.Node? ==> t.node in m'.links && m'.links[t.node] == m.links[t.node].(parent := p')
    ensures m'.Holds(t, p')
  {
    if t.Node? {
      FrameSame(m, m', t.left, t.node);
      FrameSame(m, m', t.right, t.node);
    }
  }

  lemma {:induction false} FrameSameCtx(m: Memory, m': Memory, ctx: Ctx, hole: RbNode)
    requires m.Surrounds(ctx, hole) && m'.nil == m.nil && m'.root == m.root
    requires forall n :: n in CtxNodes(ctx) ==> m'.Same(m, n)
    ensures m'.Surrounds(ctx, hole)
  {
    if ctx.In? {
      assert m'.Same(m, ctx.node);
      FrameSame(m, m', ctx.sibling, ctx.node);
      FrameSameCtx(m, m', ctx.up, ctx.node);
    }
  }

  /** A context whose nodes keep their links, save the one to the hole. */
  lemma {:induction false} FrameCtx(m: Memory, m': Memory, ctx: Ctx, hole: RbNode, hole': RbNode)
    requires m.Surrounds(ctx, hole) && m'.nil == m.nil
    requires forall n :: n in CtxNodes(ctx) && n != m.Parent(ctx) ==> m'.Same(m, n)
    requires ctx.In? ==> ctx.node in m.links && m'.Same(m.Refill(ctx, hole'), ctx.node)
    requires m'.root == if ctx.Top? then hole' else m.root
    ensures m'.Surrounds(ctx, hole')
  {
    if ctx.In? {
      FrameSame(m, m', ctx.sibling, ctx.node);
      FrameSameCtx(m, m', ctx.up, ctx.node);
    }
  }

  /** Rotating `t` towards `d` lifts its other child. */
  function Rotate(d: Dir, t: Tree): Tree
    requires t.Node? && Child(t, Flip(d)).Node?
  {
    var up := Child(t, Flip(d));
    Join(d, up.node, up.color, Join(d, t.node, t.color, Child(t, d), Child(up, d)), Child(up, Flip(d)))
  }

  /** The writes of a rotation. */
  ghost predicate RotationWrites(m: Memory, m': Memory, d: Dir, ctx: Ctx, x: RbNode, y: RbNode, b: RbNode, p: RbNode) {
    && x in m.links && y in m.links && (b == m.nil || b in m.links) && (ctx.In? ==> ctx.node in m.links)
    && m' == m.SetChild(x, Flip(d), b).Adopt(b, x).SetParent(y, p).Refill(ctx, y).SetChild(y, d, x).SetParent(x, y)
  }

  /** What they come to: four nodes with new links, the rest as before. */
  ghost predicate RotationFacts(m: Memory, m': Memory, d: Dir, ctx: Ctx, x: RbNode, y: RbNode, b: RbNode, p: RbNode) {
    && x in m.links && y in m.links && (b == m.nil || b in m.links) && (ctx.In? ==> ctx.node in m.links)
    && m'.nil == m.nil && m'.root == (if ctx.Top? then y else m.root)
    && m'.Same(m.SetChild(x, Flip(d), b).SetParent(x, y), x)
    && m'.Same(m.SetChild(y, d, x).SetParent(y, p), y)
    && (b != m.nil ==> m'.Same(m.SetParent(b, x), b))
    && (ctx.In? ==> m'.Same(m.Refill(ctx, y), ctx.node))
    && forall n :: n in m.links && n != x && n != y && n != b && n != m.Parent(ctx) ==> m'.Same(m, n)
  }

  lemma {:induction false} RotationEffect(m: Memory, m': Memory, d: Dir, ctx: Ctx, x: RbNode, y: RbNode, b: RbNode, p: RbNode)
    requires RotationWrites(m, m', d, ctx, x, y, b, p)
    requires x != y && x != b && y != b && (ctx.In? ==> ctx.node != x && ctx.node != y && ctx.node != b)
    ensures RotationFacts(m, m', d, ctx, x, y, b, p)
  {
    var m1 := m.SetChild(x, Flip(d), b).Adopt(b, x);
    var m2 := m1.SetParent(y, p).Refill(ctx, y);
    assert m'.Same(m2.SetParent(x, y), x) && m2.Same(m1, x);
    assert m'.Same(m2.SetChild(y, d, x), y);
    assert ctx.In? ==> m'.Same(m2, ctx.node) && m1.Same(m, ctx.node);
    forall n | n in m.links && n != x && n != y && n != b && n != m.Parent(ctx)
      ensures m'.Same(m, n)
    {
      assert m1.Same(m, n) && m2.Same(m1, n) && m'.Same(m2, n);
    }
  }

  lemma {:induction false} RotatedHolds(m: Memory, m': Memory, d: Dir, ctx: Ctx, t: Tree)
    requires m.At(ctx, t) && t.Node? && Child(t, Flip(d)).Node?
    requires RotationFacts(m, m', d, ctx, t.node, Child(t, Flip(d)).node, m.Root(Child(Child(t, Flip(d)), d)), m.Parent(ctx))
    ensures m'.At(ctx, Rotate(d, t))
  {
    var up := Child(t, Flip(d));
    var a, b, e := Child(t, d), Child(up, d), Child(up, Flip(d));
    assert m.Holds(up, t.node) && m.Holds(a, t.node) && m.Holds(b, up.node) && m.Holds(e, up.node);
    InLinks(m, t, m.Parent(ctx));
    InLinksCtx(m, ctx, t.node);
    assert b.Node? ==> b.node in Nodes(b);
    assert Nodes(up) == Nodes(b) + {up.node} + Nodes(e);
    assert t.node !in Nodes(up) && Nodes(a) !! Nodes(up) && up.node !in Nodes(b) && up.node !in Nodes(e);
    FrameSame(m, m', a, t.node);
    FrameTree(m, m', b, up.node, t.node);
    FrameSame(m, m', e, up.node);
    FrameCtx(m, m', ctx, t.node, up.node);
    assert m'.Holds(Join(d, t.node, t.color, a, b), up.node);
  }

  lemma {:induction false} Rotated(m: Memory, m': Memory, d: Dir, ctx: Ctx, t: Tree)
    requires m.At(ctx, t) && t.Node? && Child(t, Flip(d)).Node?
    requires RotationWrites(m, m', d, ctx, t.node, Child(t, Flip(d)).node, m.Root(Child(Child(t, Flip(d)), d)), m.Parent(ctx))
    ensures m'.At(ctx, Rotate(d, t))
  {
    var up := Child(t, Flip(d));
    Neighbours(m, ctx, t);
    Neighbours(m, In(ctx, Flip(d), t.node, t.color, Child(t, d)), up);
    assert up.node in Nodes(t) && Nodes(up) <= Nodes(t);
    var b := Child(up, d);
    assert b.Node? ==> b.node in Nodes(b) && b.node in Nodes(up);
    RotationEffect(m, m', d, ctx, t.node, up.node, m.Root(b), m.Parent(ctx));
    RotatedHolds(m, m', d, ctx, t);
  }

  lemma InLinks(m: Memory, t: Tree, p: RbNode)
    requires m.Holds(t, p)
    ensures Nodes(t) <= m.links.Keys && m.nil !in Nodes(t)
  {
  }

  lemma InLinksCtx(m: Memory, ctx: Ctx, hole: RbNode)
    requires m.Surrounds(ctx, hole)
    ensures CtxNodes(ctx) <= m.links.Keys && m.nil !in CtxNodes(ctx)
  {
    if ctx.In? {
      InLinks(m, ctx.sibling, ctx.node);
      InLinksCtx(m, ctx.up, ctx.node);
    }
  }

  /** What the code may read around a node. */
  lemma {:induction false} Neighbours(m: Memory, ctx: Ctx, t: Tree)
    requires m.At(ctx, t) && t.Node?
    ensures t.node in m.links && m.links[t.node] == Links(m.Parent(ctx), m.Root(t.left), m.Root(t.right), t.color)
    ensures t.left.Node? ==> t.left.node in m.links && t.left.node != t.node
    ensures t.right.Node? ==> t.right.node in m.links && t.right.node != t.node
    ensures ctx.In? ==> ctx.node in m.links && ctx.node !in Nodes(t) && ctx.node != m.nil
    ensures ctx.In? ==> (m.links[ctx.node].left == t.node <==> ctx.dir == Left)
    ensures t.node != m.nil
    ensures m.At(In(ctx, Left, t.node, t.color, t.right), t.left)
    ensures m.At(In(ctx, Right, t.node, t.color, t.left), t.right)
  {
    assert Nodes(t) == Nodes(t.left) + {t.node} + Nodes(t.right);
    assert m.Surrounds(ctx, t.node);
    assert m.Holds(t.left, t.node) && m.Holds(t.right, t.node);
    assert CtxNodes(In(ctx, Left, t.node, t.color, t.right)) == CtxNodes(ctx) + {t.node} + Nodes(t.right);
    assert CtxNodes(In(ctx, Right, t.node, t.color, t.left)) == CtxNodes(ctx) + {t.node} + Nodes(t.left);
  }

  /** Moving the focus up one step. */
  lemma {:induction false} Zoom(m: Memory, up: Ctx, d: Dir, n: RbNode, c: Color, s: Tree, t: Tree)
    ensures m.At(In(up, d, n, c, s), t) <==> m.At(up, Join(d, n, c, t, s))
  {
    var ctx, whole := In(up, d, n, c, s), Join(d, n, c, t, s);
    assert CtxNodes(ctx) == CtxNodes(up) + {n} + Nodes(s);
    assert Nodes(whole) == Nodes(t) + {n} + Nodes(s);
    if m.At(up, whole) {
      Neighbours(m, up, whole);
    }
    if m.At(ctx, t) {
      assert m.Surrounds(up, n);
      assert m.Holds(s, n) && m.Holds(t, n);
      assert m.Holds(whole, m.Parent(up));
    }
  }

  lemma {:induction false} Rise(m: Memory, up: Ctx, d: Dir, n: RbNode, c: Color, s: Tree, t: Tree)
    ensures m.At(In(up, d, n, c, s), t) ==> m.At(up, Join(d, n, c, t, s))
  {
    Zoom(m, up, d, n, c, s, t);
  }

  lemma {:induction false} Sink(m: Memory, up: Ctx, d: Dir, n: RbNode, c: Color, s: Tree, t: Tree)
    ensures m.At(up, Join(d, n, c, t, s)) ==> m.At(In(up, d, n, c, s), t)
  {
    Zoom(m, up, d, n, c, s, t);
  }

  /** Moving the focus to the root. */
  lemma {:induction false} ZoomOut(m: Memory, ctx: Ctx, t: Tree)
    ensures m.At(ctx, t) <==> m.At(Top, Plug(ctx, t))
    decreases ctx
  {
    if ctx.In? {
      var In(up, d, n, c, s) := ctx;
      Zoom(m, up, d, n, c, s, t);
      ZoomOut(m, up, Join(d, n, c, t, s));
    }
  }

  lemma {:induction false} Painted(m: Memory, ctx: Ctx, t: Tree, c: Color)
    requires m.At(ctx, t) && t.Node?
    ensures t.node in m.links && m.SetColor(t.node, c).At(ctx, Paint(t, c))
  {
    Neighbours(m, ctx, t);
    var m' := m.SetColor(t.node, c);
    InLinks(m, t.left, t.node);
    InLinks(m, t.right, t.node);
    InLinksCtx(m, ctx, t.node);
    FrameSame(m, m', t.left, t.node);
    FrameSame(m, m', t.right, t.node);
    FrameSameCtx(m, m', ctx, t.node);
  }

  /** Painting the node above the focus. */
  lemma {:induction false} PaintedParent(m: Memory, up: Ctx, d: Dir, n: RbNode, c: Color, c': Color, s: Tree, t: Tree)
    requires m.At(In(up, d, n, c, s), t)
    ensures n in m.links && m.SetColor(n, c').At(In(up, d, n, c', s), t)
  {
    Zoom(m, up, d, n, c, s, t);
    Painted(m, up, Join(d, n, c, t, s), c');
    Zoom(m.SetColor(n, c'), up, d, n, c', s, t);
  }

  /** Painting the other child of the node above the focus. */
  lemma {:induction false} PaintedSibling(m: Memory, up: Ctx, d: Dir, n: RbNode, c: Color, s: Tree, c': Color, t: Tree)
    requires m.At(In(up, d, n, c, s), t) && s.Node?
    ensures s.node in m.links && m.SetColor(s.node, c').At(In(up, d, n, c, Paint(s, c')), t)
  {
    Zoom(m, up, d, n, c, s, t);
    Zoom(m, up, Flip(d), n, c, t, s);
    Painted(m, In(up, Flip(d), n, c, t), s, c');
    Zoom(m.SetColor(s.node, c'), up, Flip(d), n, c, t, Paint(s, c'));
    Zoom(m.SetColor(s.node, c'), up, d, n, c, Paint(s, c'), t);
  }

  /** Painting the parent and the grandparent of the focus. */
  lemma {:induction false} PaintedPair(m: Memory, up: Ctx, gd: Dir, g: RbNode, gc: Color, uncle: Tree,
                                       d: Dir, p: RbNode, pc: Color, s: Tree, t: Tree, c: Color, c': Color)
    requires m.At(In(In(up, gd, g, gc, uncle), d, p, pc, s), t)
    ensures p in m.links && g in m.links
    ensures m.SetColor(p, c).SetColor(g, c').At(up, Join(gd, g, c', Join(d, p, c, t, s), uncle))
  {
    PaintedParent(m, In(up, gd, g, gc, uncle), d, p, pc, c, s, t);
    var m' := m.SetColor(p, c);
    Zoom(m', In(up, gd, g, gc, uncle), d, p, c, s, t);
    PaintedParent(m', up, gd, g, gc, c', uncle, Join(d, p, c, t, s));
    Zoom(m'.SetColor(g, c'), up, gd, g, c', uncle, Join(d, p, c, t, s));
  }

  /** What the insertion repair reads two levels up. */
  lemma {:induction false} GrandNeighbours(m: Memory, up: Ctx, gd: Dir, g: RbNode, gc: Color, u: Tree,
                                           d: Dir, p: RbNode, s: Tree, t: Tree)
    requires m.At(In(In(up, gd, g, gc, u), d, p, Red, s), t) && t.Node?
    ensures t.node in m.links && m.links[t.node].parent == p
    ensures p in m.links && m.links[p].parent == g
    ensures g in m.links && m.links[g].left == (if gd == Left then p else m.Root(u))
    ensures m.links[g].right == (if gd == Left then m.Root(u) else p)
    ensures m.Root(u) != p
    ensures u.Node? ==> u.node in m.links && m.links[u.node].color == u.color
  {
    var parent := Join(d, p, Red, t, s);
    Neighbours(m, In(In(up, gd, g, gc, u), d, p, Red, s), t);
    Zoom(m, In(up, gd, g, gc, u), d, p, Red, s, t);
    Neighbours(m, In(up, gd, g, gc, u), parent);
    Zoom(m, up, gd, g, gc, u, parent);
    Zoom(m, up, Flip(gd), g, gc, parent, u);
    if u.Node? { Neighbours(m, In(up, Flip(gd), g, gc, parent), u); }
    assert p in Nodes(parent);
    assert u.Node? ==> u.node in Nodes(u);
  }

  lemma {:induction false} ParentColor(m: Memory, ctx: Ctx, t: Tree)
    requires m.At(ctx, t) && t.Node?
    ensures t.node in m.links && m.links[t.node].parent == m.Parent(ctx)
    ensures ctx.In? ==> ctx.node in m.links && m.links[ctx.node].color == ctx.color
  {
  }

  /** Hanging a fresh red node in an empty place. */
  lemma {:induction false} Hung(m: Memory, ctx: Ctx, n: RbNode)
    requires m.At(ctx, Nil) && n !in m.links && n != m.nil
    ensures ctx.In? ==> ctx.node in m.links && ctx.node != m.nil
    ensures var m' := m.(links := m.links[n := Links(m.Parent(ctx), m.nil, m.nil, Red)]);
            m'.Refill(ctx, n).At(ctx, Node(Nil, n, Red, Nil))
  {
    var m' := m.(links := m.links[n := Links(m.Parent(ctx), m.nil, m.nil, Red)]);
    InLinksCtx(m, ctx, m.nil);
    FrameCtx(m, m'.Refill(ctx, n), ctx, m.nil, n);
    assert Nodes(Node(Nil, n, Red, Nil)) == {n};
  }

  /** Handing the place of `t.node` over to a node outside the tree. */
  lemma {:induction false} HandedOver(m: Memory, ctx: Ctx, t: Tree, x: RbNode)
    requires m.At(ctx, t) && t.Node? && x in m.links && x != m.nil && x !in CtxNodes(ctx) && x !in Nodes(t)
    ensures t.node in m.links && (ctx.In? ==> ctx.node in m.links)
    ensures t.left.Node? ==> t.left.node in m.links
    ensures t.right.Node? ==> t.right.node in m.links
    ensures m.Copy(x, t.node).Refill(ctx, x).Adopt(m.Root(t.left), x).Adopt(m.Root(t.right), x).At(ctx, t.(node := x))
  {
    Neighbours(m, ctx, t);
    InLinksCtx(m, ctx, t.node);
    var m' := m.Copy(x, t.node).Refill(ctx, x).Adopt(m.Root(t.left), x).Adopt(m.Root(t.right), x);
    assert t.left.Node? ==> t.left.node in Nodes(t.left);
    assert t.right.Node? ==> t.right.node in Nodes(t.right);
    InLinks(m, t.left, t.node);
    InLinks(m, t.right, t.node);
    FrameTree(m, m', t.left, t.node, x);
    FrameTree(m, m', t.right, t.node, x);
    FrameCtx(m, m', ctx, t.node, x);
  }

  /** Putting the only child of `t.node`, if any, in its place. */
  lemma {:induction false} Unhooked(m: Memory, ctx: Ctx, t: Tree)
    requires m.At(ctx, t) && t.Node? && (t.left.Nil? || t.right.Nil?)
    ensures ctx.In? ==> ctx.node in m.links && ctx.node != m.nil
    ensures var child := if t.left.Node? then t.left else t.right;
            && (child.Node? ==> child.node in m.links)
            && m.Refill(ctx, m.Root(child)).Adopt(m.Root(child), m.Parent(ctx)).At(ctx, child)
  {
    Neighbours(m, ctx, t);
    InLinksCtx(m, ctx, t.node);
    var child := if t.left.Node? then t.left else t.right;
    var m' := m.Refill(ctx, m.Root(child)).Adopt(m.Root(child), m.Parent(ctx));
    assert child.Node? ==> child.node in Nodes(child);
    InLinks(m, child, t.node);
    FrameTree(m, m', child, t.node, m.Parent(ctx));
    FrameCtx(m, m', ctx, t.node, m.Root(child));
  }

  lemma {:induction false} RootOutside(m: Memory, ctx: Ctx, hole: RbNode)
    requires m.Surrounds(ctx, hole) && ctx.In?
    ensures m.root in CtxNodes(ctx)
  {
    if ctx.up.In? { RootOutside(m, ctx.up, ctx.node); }
  }

  /** What the removal repair reads around a node and its sibling. */
  lemma {:induction false} SiblingNeighbours(m: Memory, up: Ctx, d: Dir, p: RbNode, pc: Color, s: Tree, t: Tree)
    requires m.At(In(up, d, p, pc, s), t) && t.Node?
    ensures t.node in m.links && m.links[t.node].parent == p
    ensures p in m.links && m.links[p] == Links(m.Parent(up), m.Root(Join(d, p, pc, t, s).left), m.Root(Join(d, p, pc, t, s).right), pc)
    ensures m.Root(s) != t.node
    ensures s.Node? ==> s.node in m.links && m.links[s.node] == Links(p, m.Root(s.left), m.Root(s.right), s.color)
    ensures s.Node? && s.left.Node? ==> s.left.node in m.links && m.links[s.left.node].color == s.left.color
    ensures s.Node? && s.right.Node? ==> s.right.node in m.links && m.links[s.right.node].color == s.right.color
  {
    Neighbours(m, In(up, d, p, pc, s), t);
    Zoom(m, up, d, p, pc, s, t);
    Neighbours(m, up, Join(d, p, pc, t, s));
    if s.Node? {
      Zoom(m, up, Flip(d), p, pc, t, s);
      Neighbours(m, In(up, Flip(d), p, pc, t), s);
      if s.left.Node? { Neighbours(m, In(In(up, Flip(d), p, pc, t), Left, s.node, s.color, s.right), s.left); }
      if s.right.Node? { Neighbours(m, In(In(up, Flip(d), p, pc, t), Right, s.node, s.color, s.left), s.right); }
    }
  }

  /** Swapping the roles of the focus and its sibling. */
  lemma {:induction false} Sideways(m: Memory, up: Ctx, d: Dir, p: RbNode, pc: Color, s: Tree, t: Tree)
    requires m.At(In(up, d, p, pc, s), t)
    ensures m.At(In(up, Flip(d), p, pc, t), s)
  {
    Zoom(m, up, d, p, pc, s, t);
    Zoom(m, up, Flip(d), p, pc, t, s);
  }

  /** Case 5 paints the sibling red and its near child black. */
  lemma {:induction false} BendPainted(m: Memory, up: Ctx, d: Dir, p: RbNode, pc: Color, s: Tree, t: Tree)
    requires m.At(In(up, d, p, pc, s), t) && s.Node? && Child(s, d).Node?
    ensures s.node in m.links && Child(s, d).node in m.links
    ensures m.SetColor(s.node, Red).SetColor(Child(s, d).node, Black).At(In(up, Flip(d), p, pc, t),
              Join(d, s.node, Red, Paint(Child(s, d), Black), Child(s, Flip(d))))
  {
    Sideways(m, up, d, p, pc, s, t);
    var ctx := In(up, Flip(d), p, pc, t);
    var near, far := Child(s, d), Child(s, Flip(d));
    Painted(m, ctx, s, Red);
    var m' := m.SetColor(s.node, Red);
    Zoom(m', ctx, d, s.node, Red, far, near);
    Painted(m', In(ctx, d, s.node, Red, far), near, Black);
    Zoom(m'.SetColor(near.node, Black), ctx, d, s.node, Red, far, Paint(near, Black));
  }

  /** Case 6 paints the sibling's far child black. */
  lemma {:induction false} FarPainted(m: Memory, up: Ctx, d: Dir, p: RbNode, pc: Color, s: Tree, t: Tree)
    requires m.At(In(up, d, p, pc, s), t) && s.Node? && Child(s, Flip(d)).Node?
    ensures Child(s, Flip(d)).node in m.links
    ensures m.SetColor(Child(s, Flip(d)).node, Black).At(
              In(up, d, p, pc, Join(d, s.node, s.color, Child(s, d), Paint(Child(s, Flip(d)), Black))), t)
  {
    Sideways(m, up, d, p, pc, s, t);
    var ctx := In(up, Flip(d), p, pc, t);
    var near, far := Child(s, d), Child(s, Flip(d));
    Zoom(m, ctx, Flip(d), s.node, s.color, near, far);
    Painted(m, In(ctx, Flip(d), s.node, s.color, near), far, Black);
    var m' := m.SetColor(far.node, Black);
    Zoom(m', ctx, Flip(d), s.node, s.color, near, Paint(far, Black));
    Sideways(m', up, Flip(d), p, pc, t, Join(d, s.node, s.color, near, Paint(far, Black)));
  }

  /** Nodes outside the tree may come and go. */
  lemma {:induction false} Extended(m: Memory, ctx: Ctx, t: Tree, n: RbNode, l: Links)
    requires m.At(ctx, t) && n !in m.links
    ensures m.(links := m.links[n := l]).At(ctx, t)
  {
    var m' := m.(links := m.links[n := l]);
    InLinks(m, t, m.Parent(ctx));
    InLinksCtx(m, ctx, m.Root(t));
    FrameSame(m, m', t, m.Parent(ctx));
    FrameSameCtx(m, m', ctx, m.Root(t));
  }

  function Restrict(links: map<RbNode, Links>, t: Tree): map<RbNode, Links>
    requires Nodes(t) <= links.Keys
  {
    map n | n in Nodes(t) :: links[n]
  }

  lemma {:induction false} Restricted(m: Memory, t: Tree)
    requires m.At(Top, t)
    ensures Nodes(t) <= m.links.Keys && m.(links := Restrict(m.links, t)).At(Top, t)
  {
    InLinks(m, t, m.nil);
    FrameSame(m, m.(links := Restrict(m.links, t)), t, m.nil);
  }
}
