/** The intrusive red-black tree of src/lc_rbt.c, updated in place. */
module RbTrees {
  import opened RbSpec
  import opened RbLaws
  import opened RbMemory

  class RbTree {
    const nil: RbNode
    var root: RbNode
    ghost var links: map<RbNode, Links>
    ghost var shape: Tree

    /** The sentinel is as it was made. */
    ghost predicate Intact()
      reads nil
    {
      nil.parent == nil && nil.left == nil && nil.right == nil && nil.thread == nil && nil.color == Black
    }

    /** `links` mirrors the fields of the tree's nodes, none of which carries a
        thread; the sentinel is not one of them. */
    ghost predicate Mirrored()
      reads this, links.Keys, nil
    {
      && nil !in links && Intact()
      && forall n :: n in links ==> links[n] == Links(n.parent, n.left, n.right, n.color) && n.thread == nil
    }

    ghost function Mem(): Memory
      reads this
    {
      Memory(nil, root, links)
    }

    /** A well-formed tree: the heap holds `shape`, which is red-black. */
    ghost predicate Valid()
      reads this, links.Keys, nil
    {
      Mirrored() && Mem().At(Top, shape) && links.Keys == Nodes(shape) && RedBlack(shape)
    }

    constructor (end: RbNode)
      requires end.parent == end.left == end.right == end.thread == end && end.color == Black
      ensures Valid() && nil == end && shape == Nil
    {
      nil := end;
      root := end;
      links := map[];
      shape := Nil;
    }

    // Every write to a node goes through one of the next four methods, none of
    // which accepts the sentinel.

    method SetParent(n: RbNode, x: RbNode)
      requires Mirrored() && n in links
      modifies `links, n`parent
      ensures Mirrored() && links.Keys == old(links).Keys && Mem() == old(Mem()).SetParent(n, x)
    {
      n.parent := x;
      links := links[n := links[n].(parent := x)];
    }

    method SetLeft(n: RbNode, x: RbNode)
      requires Mirrored() && n in links
      modifies `links, n`left
      ensures Mirrored() && links.Keys == old(links).Keys && Mem() == old(Mem()).SetChild(n, Left, x)
    {
      n.left := x;
      links := links[n := links[n].(left := x)];
    }

    method SetRight(n: RbNode, x: RbNode)
      requires Mirrored() && n in links
      modifies `links, n`right
      ensures Mirrored() && links.Keys == old(links).Keys && Mem() == old(Mem()).SetChild(n, Right, x)
    {
      n.right := x;
      links := links[n := links[n].(right := x)];
    }

    method SetColor(n: RbNode, c: Color)
      requires Mirrored() && n in links
      modifies `links, n`color
      ensures Mirrored() && links.Keys == old(links).Keys && Mem() == old(Mem()).SetColor(n, c)
    {
      n.color := c;
      links := links[n := links[n].(color := c)];
    }

    /** A parent link is written only when there is a node to hold it. */
    method Adopt(child: RbNode, p: RbNode)
      requires Mirrored() && (child == nil || child in links)
      modifies `links, links.Keys
      ensures Mirrored() && links.Keys == old(links).Keys && Mem() == old(Mem()).Adopt(child, p)
    {
      if child != nil {
        SetParent(child, p);
      }
    }

    /** Whoever pointed at `was`, its parent or the tree itself, points at `now`. */
    method Attach(parent: RbNode, was: RbNode, now: RbNode, ghost ctx: Ctx)
      requires Mirrored() && parent == Mem().Parent(ctx) && (ctx.In? ==> parent in links)
      requires ctx.In? ==> (links[parent].left == was <==> ctx.dir == Left)
      modifies `root, `links, links.Keys
      ensures Mirrored() && links.Keys == old(links).Keys && Mem() == old(Mem()).Refill(ctx, now)
    {
      if parent == nil {
        root := now;
      } else if was == parent.left {
        SetLeft(parent, now);
      } else {
        SetRight(parent, now);
      }
    }

    /** The lower half of a rotation: the inner subtree of the child changes sides. */
    method PassLeft(node: RbNode, child: RbNode)
      requires Mirrored() && node in links && child in links && node != child && child.left != node
      requires child.left == nil || child.left in links
      modifies `links, links.Keys
      ensures Mirrored() && links.Keys == old(links).Keys
      ensures Mem() == old(Mem()).SetChild(node, Right, old(child.left)).Adopt(old(child.left), node)
    {
      SetRight(node, child.left);
      Adopt(child.left, node);
    }

    method PassRight(node: RbNode, child: RbNode)
      requires Mirrored() && node in links && child in links && node != child && child.right != node
      requires child.right == nil || child.right in links
      modifies `links, links.Keys
      ensures Mirrored() && links.Keys == old(links).Keys
      ensures Mem() == old(Mem()).SetChild(node, Left, old(child.right)).Adopt(old(child.right), node)
    {
      SetLeft(node, child.right);
      Adopt(child.right, node);
    }

    /** The upper half: the child comes to the place of the node. */
    method Hoist(node: RbNode, child: RbNode, ghost ctx: Ctx)
      requires Mirrored() && node in links && child in links && node != child && node.parent == Mem().Parent(ctx)
      requires ctx.In? ==> node.parent in links && node.parent != child && (node.parent.left == node <==> ctx.dir == Left)
      modifies `root, `links, links.Keys
      ensures Mirrored() && links.Keys == old(links).Keys
      ensures Mem() == old(Mem()).SetParent(child, old(node.parent)).Refill(ctx, child)
    {
      Adopt(child, node.parent);
      Attach(node.parent, node, child, ctx);
    }

    method RotateLeft(node: RbNode, ghost ctx: Ctx, ghost t: Tree)
      requires Mirrored() && Mem().At(ctx, t) && t.Node? && t.node == node && t.right.Node?
      modifies `root, `links, links.Keys
      ensures Mirrored() && Mem().At(ctx, Rotate(Left, t)) && links.Keys == old(links).Keys
    {
      ghost var m := Mem();
      Neighbours(m, ctx, t);
      Neighbours(m, In(ctx, Right, node, t.color, t.left), t.right);
      var child := node.right;
      PassLeft(node, child);
      Hoist(node, child, ctx);
      if child != nil {
        SetLeft(child, node);
      }
      SetParent(node, child);
      Rotated(m, Mem(), Left, ctx, t);
    }
  
    method RotateRight(node: RbNode, ghost ctx: Ctx, ghost t: Tree)
      requires Mirrored() && Mem().At(ctx, t) && t.Node? && t.node == node && t.left.Node?
      modifies `root, `links, links.Keys
      ensures Mirrored() && Mem().At(ctx, Rotate(Right, t)) && links.Keys == old(links).Keys
    {
      ghost var m := Mem();
      Neighbours(m, ctx, t);
      Neighbours(m, In(ctx, Left, node, t.color, t.right), t.left);
      var child := node.left;
      PassRight(node, child);
      Hoist(node, child, ctx);
      if child != nil {
        SetRight(child, node);
      }
      SetParent(node, child);
      Rotated(m, Mem(), Right, ctx, t);
    }

    /** A red uncle: both red nodes turn black and the grandparent red. */
    method Recolour(node: RbNode, uncle: RbNode, ghost up: Ctx, ghost gd: Dir, ghost g: RbNode, ghost gc: Color, ghost u: Tree,
                    ghost d: Dir, ghost p: RbNode, ghost s: Tree, ghost t: Tree) returns (next: RbNode)
      requires Mirrored() && Mem().At(In(In(up, gd, g, gc, u), d, p, Red, s), t)
      requires t.Node? && t.node == node && u.Node? && u.node == uncle
      modifies `links, links.Keys
      ensures Mirrored() && links.Keys == old(links).Keys && next == g
      ensures Mem().At(up, Join(gd, g, Red, Join(d, p, Black, t, s), Paint(u, Black)))
    {
      ghost var m := Mem();
      ghost var grand := In(up, gd, g, gc, u);
      Neighbours(m, In(grand, d, p, Red, s), t);
      Rise(m, grand, d, p, Red, s, t);
      Neighbours(m, grand, Join(d, p, Red, t, s));
      PaintedSibling(m, up, gd, g, gc, u, Black, Join(d, p, Red, t, s));
      Sink(m.SetColor(u.node, Black), In(up, gd, g, gc, Paint(u, Black)), d, p, Red, s, t);
      PaintedPair(m.SetColor(u.node, Black), up, gd, g, gc, Paint(u, Black), d, p, Red, s, t, Black, Red);
      SetColor(uncle, Black);
      SetColor(node.parent, Black);
      SetColor(node.parent.parent, Red);
      next := node.parent.parent;
    }

    /** A black uncle on the right: straighten a bend, then rotate the
        grandparent. */
    method LiftLeft(start: RbNode, ghost up: Ctx, ghost g: RbNode, ghost gc: Color, ghost u: Tree,
                    ghost d: Dir, ghost p: RbNode, ghost s: Tree, ghost t: Tree) returns (node: RbNode)
      requires Mirrored() && Mem().At(In(In(up, Left, g, gc, u), d, p, Red, s), t)
      requires t.Node? && t.node == start && t.color == Red
      modifies `root, `links, links.Keys
      ensures Mirrored() && links.Keys == old(links).Keys
      ensures Mem().At(up, Lifted(Left, g, u, d, p, s, t)) && node == Lifted(Left, g, u, d, p, s, t).left.node
    {
      node := start;
      ghost var grand := In(up, Left, g, gc, u);
      ghost var parent, sib, t' := p, s, t;
      Neighbours(Mem(), In(grand, d, p, Red, s), t);
      Rise(Mem(), grand, d, p, Red, s, t);
      Neighbours(Mem(), grand, Join(d, p, Red, t, s));
      if node == node.parent.right {
        node := node.parent;
        RotateLeft(node, grand, Join(d, p, Red, t, s));
        parent, sib, t' := t.node, t.right, Node(s, p, Red, t.left);
      }
      Sink(Mem(), grand, Left, parent, Red, sib, t');
      Neighbours(Mem(), In(grand, Left, parent, Red, sib), t');
      Neighbours(Mem(), grand, Join(Left, parent, Red, t', sib));
      PaintedPair(Mem(), up, Left, g, gc, u, Left, parent, Red, sib, t', Black, Red);
      SetColor(node.parent, Black);
      SetColor(node.parent.parent, Red);
      RotateRight(node.parent.parent, up, Node(Node(t', parent, Black, sib), g, Red, u));
    }
  
    method LiftRight(start: RbNode, ghost up: Ctx, ghost g: RbNode, ghost gc: Color, ghost u: Tree,
                     ghost d: Dir, ghost p: RbNode, ghost s: Tree, ghost t: Tree) returns (node: RbNode)
      requires Mirrored() && Mem().At(In(In(up, Right, g, gc, u), d, p, Red, s), t)
      requires t.Node? && t.node == start && t.color == Red
      modifies `root, `links, links.Keys
      ensures Mirrored() && links.Keys == old(links).Keys
      ensures Mem().At(up, Lifted(Right, g, u, d, p, s, t)) && node == Lifted(Right, g, u, d, p, s, t).right.node
    {
      node := start;
      ghost var grand := In(up, Right, g, gc, u);
      ghost var parent, sib, t' := p, s, t;
      Neighbours(Mem(), In(grand, d, p, Red, s), t);
      Rise(Mem(), grand, d, p, Red, s, t);
      Neighbours(Mem(), grand, Join(d, p, Red, t, s));
      if node == node.parent.left {
        node := node.parent;
        RotateRight(node, grand, Join(d, p, Red, t, s));
        parent, sib, t' := t.node, t.left, Node(t.right, p, Red, s);
      }
      Sink(Mem(), grand, Right, parent, Red, sib, t');
      Neighbours(Mem(), In(grand, Right, parent, Red, sib), t');
      Neighbours(Mem(), grand, Join(Right, parent, Red, t', sib));
      PaintedPair(Mem(), up, Right, g, gc, u, Right, parent, Red, sib, t', Black, Red);
      SetColor(node.parent, Black);
      SetColor(node.parent.parent, Red);
      RotateLeft(node.parent.parent, up, Node(u, g, Red, Node(sib, parent, Black, t')));
    }

    /** One turn of the repair loop. */
    method FixStep(node: RbNode, ghost ctx: Ctx, ghost t: Tree) returns (next: RbNode, ghost ctx': Ctx, ghost t': Tree)
      requires Mirrored() && Mem().At(ctx, t) && t.Node? && t.node == node && t.color == Red
      requires RootBlack(ctx) && ctx.In? && ctx.color == Red
      modifies `root, `links, links.Keys
      ensures Mirrored() && Mem().At(ctx', t') && t'.Node? && t'.node == next && t'.color == Red && RootBlack(ctx')
      ensures FixUp(ctx', t') == FixUp(ctx, t) && Depth(ctx') < Depth(ctx) && links.Keys == old(links).Keys
    {
      ghost var In(grand, d, p, _, s) := ctx;
      assert RootBlack(grand);
      ghost var In(up, gd, g, gc, u) := grand;
      GrandNeighbours(Mem(), up, gd, g, gc, u, d, p, s, t);
      if ColorOf(u) == Black { LiftedStep(up, gd, g, gc, u, d, p, s, t); }
      ghost var top := Lifted(gd, g, u, d, p, s, t);
      ctx', t' := Settled(up, gd, top), Child(top, gd);
      if node.parent == node.parent.parent.left {
        var uncle := node.parent.parent.right;
        if uncle.color == Red {
          next := Recolour(node, uncle, up, gd, g, gc, u, d, p, s, t);
          ctx', t' := up, Join(gd, g, Red, Join(d, p, Black, t, s), Paint(u, Black));
        } else {
          next := LiftLeft(node, up, g, gc, u, d, p, s, t);
          Sink(Mem(), up, Left, top.node, Black, top.right, top.left);
        }
      } else {
        var uncle := node.parent.parent.left;
        if uncle.color == Red {
          next := Recolour(node, uncle, up, gd, g, gc, u, d, p, s, t);
          ctx', t' := up, Join(gd, g, Red, Join(d, p, Black, t, s), Paint(u, Black));
        } else {
          next := LiftRight(node, up, g, gc, u, d, p, s, t);
          Sink(Mem(), up, Right, top.node, Black, top.left, top.right);
        }
      }
    }

    method PaintRoot(ghost ctx: Ctx, ghost t: Tree)
      requires Mirrored() && Mem().At(ctx, t) && t.Node?
      modifies `links, links.Keys
      ensures Mirrored() && Mem().At(Top, Paint(Plug(ctx, t), Black)) && links.Keys == old(links).Keys
    {
      ZoomOut(Mem(), ctx, t);
      PlugIsNode(ctx, t);
      Painted(Mem(), Top, Plug(ctx, t), Black);
      SetColor(root, Black);
    }

    /** The repair after an insertion below `ctx0`: recolour upwards, then rotate
        at most twice. */
    method Fix(start: RbNode, ghost ctx0: Ctx, ghost t0: Tree)
      requires Mirrored() && Mem().At(ctx0, t0) && t0.Node? && t0.node == start && t0.color == Red && RootBlack(ctx0)
      modifies `root, `links, links.Keys
      ensures Mirrored() && Mem().At(Top, FixUp(ctx0, t0)) && links.Keys == old(links).Keys
    {
      var node := start;
      ghost var ctx, t := ctx0, t0;
      ghost var goal := FixUp(ctx0, t0);
      ParentColor(Mem(), ctx, t);
      while node.parent.color == Red
        invariant Mirrored() && links.Keys == old(links).Keys
        invariant Mem().At(ctx, t) && t.Node? && t.node == node && t.color == Red && RootBlack(ctx)
        invariant node.parent.color == if ctx.Top? then Black else ctx.color
        invariant FixUp(ctx, t) == goal
        decreases Depth(ctx)
      {
        node, ctx, t := FixStep(node, ctx, t);
        ParentColor(Mem(), ctx, t);
      }
      PaintRoot(ctx, t);
    }
  
    /** Storing into the slot that the descent has reached. */
    method Store(p: RbNode, d: Dir, node: RbNode, ghost ctx: Ctx)
      requires Mirrored() && p == Mem().Parent(ctx)
      requires ctx.In? ==> p in links && ctx.dir == d
      modifies `root, `links, links.Keys
      ensures Mirrored() && links.Keys == old(links).Keys && Mem() == old(Mem()).Refill(ctx, node)
    {
      if p == nil {
        root := node;
      } else if d == Left {
        SetLeft(p, node);
      } else {
        SetRight(p, node);
      }
    }

    /** The descent of an insertion: the slot is the root, or the `d` child of `p`. */
    method Slot(k: int) returns (p: RbNode, d: Dir, at: RbNode, ghost ctx: Ctx, ghost t: Tree)
      requires Valid()
      ensures (ctx, t) == Descend(Top, shape, k) && Mem().At(ctx, t) && at == Mem().Root(t)
      ensures p == Mem().Parent(ctx) && (ctx.In? ==> p in links && p != nil && ctx.dir == d)
    {
      p, d, at := nil, Left, root;
      ctx, t := Top, shape;
      while at != nil
        invariant Mem().At(ctx, t) && Mem().Root(t) == at && Mem().Parent(ctx) == p
        invariant ctx.In? ==> p in links && p != nil && ctx.dir == d
        invariant Descend(ctx, t, k) == Descend(Top, shape, k)
        decreases t
      {
        Neighbours(Mem(), ctx, t);
        if k == at.key {
          return;
        } else if k < at.key {
          p, d, at := at, Left, at.left;
          ctx, t := In(ctx, Left, t.node, t.color, t.right), t.left;
        } else {
          p, d, at := at, Right, at.right;
          ctx, t := In(ctx, Right, t.node, t.color, t.left), t.right;
        }
      }
    }

    /** Fills the empty slot and repairs the tree. */
    method Hang(node: RbNode, p: RbNode, d: Dir, ghost ctx: Ctx)
      requires Mirrored() && Mem().At(ctx, Nil) && RootBlack(ctx) && node !in links && node != nil
      requires node.left == node.right == node.thread == nil && node.color == Red
      requires p == Mem().Parent(ctx) && (ctx.In? ==> p in links && p != nil && ctx.dir == d)
      modifies `root, `links, links.Keys, node
      ensures Mirrored() && links.Keys == old(links).Keys + {node}
      ensures Mem().At(Top, FixUp(ctx, Node(Nil, node, Red, Nil)))
    {
      Place(node, p, d, ctx);
      Fix(node, ctx, Node(Nil, node, Red, Nil));
    }

    method Place(node: RbNode, p: RbNode, d: Dir, ghost ctx: Ctx)
      requires Mirrored() && Mem().At(ctx, Nil) && node !in links && node != nil
      requires node.left == node.right == node.thread == nil && node.color == Red
      requires p == Mem().Parent(ctx) && (ctx.In? ==> p in links && p != nil && ctx.dir == d)
      modifies `root, `links, links.Keys, node
      ensures Mirrored() && links.Keys == old(links).Keys + {node}
      ensures Mem().At(ctx, Node(Nil, node, Red, Nil))
    {
      Hung(Mem(), ctx, node);
      node.parent := p;
      links := links[node := Links(p, nil, nil, Red)];
      Store(p, d, node, ctx);
    }

    /** Adds `node` where the search for its key ends, or reports that the key is
        taken. */
    method Insert(node: RbNode) returns (ok: bool)
      requires Valid() && node !in links && node != nil
      requires node.left == node.right == node.thread == nil && node.color == Red
      modifies this, links.Keys, node
      ensures Valid() && shape == RbLaws.Insert(old(shape), node)
      ensures ok == Descend(Top, old(shape), node.key).1.Nil?
      ensures !ok ==> root == old(root) && links == old(links) && unchanged(node)
      ensures links.Keys == old(links).Keys + if ok then {node} else {}
    {
      var p, d, at;
      ghost var ctx, t;
      p, d, at, ctx, t := Slot(node.key);
      if at != nil {
        return false;
      }
      InsertSummary(shape, node);
      Hang(node, p, d, ctx);
      shape := RbLaws.Insert(shape, node);
      ok := true;
    }

    /** Follows the search path for `k`. */
    method Find(k: int) returns (found: RbNode, ghost steps: nat)
      requires Valid()
      ensures found == Mem().Root(Descend(Top, shape, k).1)
      ensures steps <= Height(shape)
    {
      found := root;
      steps := 0;
      ghost var ctx, t := Top, shape;
      while found != nil
        invariant Mem().At(ctx, t) && Mem().Root(t) == found
        invariant Descend(ctx, t, k) == Descend(Top, shape, k)
        invariant steps + Height(t) <= Height(shape)
        decreases t
      {
        Neighbours(Mem(), ctx, t);
        steps := steps + 1;
        if k == found.key {
          return;
        } else if k < found.key {
          found := found.left;
          ctx, t := In(ctx, Left, t.node, t.color, t.right), t.left;
        } else {
          found := found.right;
          ctx, t := In(ctx, Right, t.node, t.color, t.left), t.right;
        }
      }
    }

    method Min() returns (least: RbNode)
      requires Valid()
      ensures least == if shape.Nil? then nil else First(shape)
    {
      least := root;
      ghost var ctx, t := Top, shape;
      while least != nil && least.left != nil
        invariant Mem().At(ctx, t) && Mem().Root(t) == least
        invariant t.Nil? <==> shape.Nil?
        invariant t.Node? ==> First(t) == First(shape)
        decreases t
      {
        Neighbours(Mem(), ctx, t);
        least := least.left;
        LeftmostFocus(Top, t.left, In(Top, Left, t.node, t.color, t.right));
        ctx, t := In(ctx, Left, t.node, t.color, t.right), t.left;
      }
      if t.Node? { Neighbours(Mem(), ctx, t); }
    }
  
    // ---------- removal ----------

    /** The other child of the parent. */
    function Sibling(node: RbNode): RbNode
      reads node, node.parent
    {
      if node.parent.left == node then node.parent.right else node.parent.left
    }

    /** The fields that the six cases look at. */
    ghost predicate Sees(node: RbNode, d: Dir, p: RbNode, pc: Color, s: Tree)
      reads node, p, nil, Nodes(s)
    {
      && node.parent == p && p.color == pc && node != nil
      && (if d == Left then p.left == node && p.right == Root(s) else p.right == node && p.left == Root(s))
      && Root(s) != node
      && Root(s).color == ColorOf(s)
      && (s.Node? ==> s.node.left == Root(s.left) && s.node.right == Root(s.right))
      && (s.Node? ==>
            assert s.left.Node? ==> s.left.node in Nodes(s.left);
            assert s.right.Node? ==> s.right.node in Nodes(s.right);
            Root(s.left).color == ColorOf(s.left) && Root(s.right).color == ColorOf(s.right))
    }

    function Root(t: Tree): RbNode {
      if t.Nil? then nil else t.node
    }

    lemma Look(up: Ctx, d: Dir, p: RbNode, pc: Color, s: Tree, t: Tree)
      requires Mirrored() && Mem().At(In(up, d, p, pc, s), t) && t.Node?
      ensures Sees(t.node, d, p, pc, s) && t.node in links && p in links
      ensures s.Node? ==> s.node in links
      ensures s.Node? && s.left.Node? ==> s.left.node in links
      ensures s.Node? && s.right.Node? ==> s.right.node in links
    {
      SiblingNeighbours(Mem(), up, d, p, pc, s, t);
    }
  
    /** Rotating the parent towards the node lifts the sibling over both. */
    method RotateParent(node: RbNode, ghost up: Ctx, ghost d: Dir, ghost p: RbNode, ghost pc: Color, ghost s: Tree, ghost t: Tree)
      requires Mirrored() && Mem().At(In(up, d, p, pc, s), t) && t.Node? && t.node == node && s.Node?
      modifies `root, `links, links.Keys
      ensures Mirrored() && links.Keys == old(links).Keys
      ensures Mem().At(In(In(up, d, s.node, s.color, Child(s, Flip(d))), d, p, pc, Child(s, d)), t)
    {
      Look(up, d, p, pc, s, t);
      Rise(Mem(), up, d, p, pc, s, t);
      if node == node.parent.left {
        RotateLeft(node.parent, up, Join(d, p, pc, t, s));
      } else {
        RotateRight(node.parent, up, Join(d, p, pc, t, s));
      }
      Sink(Mem(), up, d, s.node, s.color, Child(s, Flip(d)), Join(d, p, pc, t, Child(s, d)));
      Sink(Mem(), In(up, d, s.node, s.color, Child(s, Flip(d))), d, p, pc, Child(s, d), t);
    }

    method Rm1(node: RbNode, ghost ctx: Ctx, ghost t: Tree, ghost h: int)
      requires Mirrored() && Mem().At(ctx, t) && t.Node? && t.node == node
      requires Accepts(ctx, Black, h + 1) && h >= 0
      modifies `root, `links, links.Keys
      ensures Mirrored() && links.Keys == old(links).Keys && Mem().At(Top, Plug(RbSpec.Rm1(ctx, h), t))
      decreases Depth(ctx), 3
    {
      ParentColor(Mem(), ctx, t);
      ZoomOut(Mem(), ctx, t);
      if node.parent != nil {
        Rm2(node, ctx, t, h);
      }
    }

    method Rm2(node: RbNode, ghost ctx: Ctx, ghost t: Tree, ghost h: int)
      requires Mirrored() && Mem().At(ctx, t) && t.Node? && t.node == node
      requires ctx.In? && Accepts(ctx, Black, h + 1) && h >= 0
      modifies `root, `links, links.Keys
      ensures Mirrored() && links.Keys == old(links).Keys && Mem().At(Top, Plug(RbSpec.Rm2(ctx, h), t))
      decreases Depth(ctx), 2
    {
      ghost var In(up, d, p, pc, s) := ctx;
      ghost var ctx' := ctx;
      Look(up, d, p, pc, s, t);
      var sib := Sibling(node);
      if ColorOf(s) == Red { LoweredAccepts(ctx, h); }
      if sib.color == Red {
        PaintedParent(Mem(), up, d, p, pc, Red, s, t);
        SetColor(node.parent, Red);
        PaintedSibling(Mem(), up, d, p, Red, s, Black, t);
        SetColor(sib, Black);
        RotateParent(node, up, d, p, Red, Paint(s, Black), t);
        ctx' := Lowered(ctx);
      }
      Rm3(node, ctx', t, h);
    }

    method Rm3(node: RbNode, ghost ctx: Ctx, ghost t: Tree, ghost h: int)
      requires Mirrored() && Mem().At(ctx, t) && t.Node? && t.node == node
      requires ctx.In? && Accepts(ctx, Black, h + 1) && h >= 0 && ColorOf(ctx.sibling) == Black
      modifies `root, `links, links.Keys
      ensures Mirrored() && links.Keys == old(links).Keys && Mem().At(Top, Plug(RbSpec.Rm3(ctx, h), t))
      decreases if ctx.color == Red then 0 else Depth(ctx), 1
    {
      ghost var In(up, d, p, pc, s) := ctx;
      Look(up, d, p, pc, s, t);
      var sib := Sibling(node);
      if node.parent.color == Black && sib.color == Black && sib.left.color == Black && sib.right.color == Black {
        Climb(node, sib, up, d, p, s, t, h);
      } else {
        Rm4(node, ctx, t, h);
      }
    }

    /** Case 3: with black all around, the sibling turns red and the parent is
        now the short one. */
    method Climb(node: RbNode, sib: RbNode, ghost up: Ctx, ghost d: Dir, ghost p: RbNode, ghost s: Tree, ghost t: Tree, ghost h: int)
      requires Mirrored() && Mem().At(In(up, d, p, Black, s), t) && t.Node? && t.node == node && s.Node? && s.node == sib
      requires Accepts(up, Black, h + 2) && h >= 0
      modifies `root, `links, links.Keys
      ensures Mirrored() && links.Keys == old(links).Keys
      ensures Mem().At(Top, Plug(RbSpec.Rm1(up, h + 1), Join(d, p, Black, t, Paint(s, Red))))
      decreases Depth(up) + 1, 0
    {
      var parent := PaintRed(node, sib, up, d, p, s, t);
      Rm1(parent, up, Join(d, p, Black, t, Paint(s, Red)), h + 1);
    }

    method PaintRed(node: RbNode, sib: RbNode, ghost up: Ctx, ghost d: Dir, ghost p: RbNode, ghost s: Tree, ghost t: Tree)
      returns (parent: RbNode)
      requires Mirrored() && Mem().At(In(up, d, p, Black, s), t) && t.Node? && t.node == node && s.Node? && s.node == sib
      modifies `links, links.Keys
      ensures Mirrored() && links.Keys == old(links).Keys
      ensures parent == p && Mem().At(up, Join(d, p, Black, t, Paint(s, Red)))
    {
      Look(up, d, p, Black, s, t);
      PaintedSibling(Mem(), up, d, p, Black, s, Red, t);
      SetColor(sib, Red);
      Rise(Mem(), up, d, p, Black, Paint(s, Red), t);
      parent := node.parent;
    }

    method Rm4(node: RbNode, ghost ctx: Ctx, ghost t: Tree, ghost h: int)
      requires Mirrored() && Mem().At(ctx, t) && t.Node? && t.node == node
      requires ctx.In? && Accepts(ctx, Black, h + 1) && h >= 0 && ColorOf(ctx.sibling) == Black
      requires ctx.color == Red || ColorOf(ctx.sibling.left) == Red || ColorOf(ctx.sibling.right) == Red
      modifies `root, `links, links.Keys
      ensures Mirrored() && links.Keys == old(links).Keys && Mem().At(Top, Plug(RbSpec.Rm4(ctx, h), t))
    {
      ghost var In(up, d, p, pc, s) := ctx;
      Look(up, d, p, pc, s, t);
      var sib := Sibling(node);
      if node.parent.color == Red && sib.color == Black && sib.left.color == Black && sib.right.color == Black {
        PaintedSibling(Mem(), up, d, p, pc, s, Red, t);
        SetColor(sib, Red);
        PaintedParent(Mem(), up, d, p, pc, Black, Paint(s, Red), t);
        SetColor(node.parent, Black);
        ZoomOut(Mem(), In(up, d, p, Black, Paint(s, Red)), t);
      } else {
        Rm5(node, ctx, t, h);
      }
    }

    method Rm5(node: RbNode, ghost ctx: Ctx, ghost t: Tree, ghost h: int)
      requires Mirrored() && Mem().At(ctx, t) && t.Node? && t.node == node
      requires ctx.In? && Accepts(ctx, Black, h + 1) && h >= 0 && ColorOf(ctx.sibling) == Black
      requires ColorOf(ctx.sibling.left) == Red || ColorOf(ctx.sibling.right) == Red
      modifies `root, `links, links.Keys
      ensures Mirrored() && links.Keys == old(links).Keys && Mem().At(Top, Plug(RbSpec.Rm5(ctx, h), t))
    {
      ghost var In(up, d, p, pc, s) := ctx;
      ghost var ctx' := ctx;
      Look(up, d, p, pc, s, t);
      var sib := Sibling(node);
      if node.parent.left == node && sib.color == Black && sib.left.color == Red && sib.right.color == Black {
        SetColor(sib, Red);
        SetColor(sib.left, Black);
        BendPainted(old(Mem()), up, d, p, pc, s, t);
        RotateRight(sib, In(up, Right, p, pc, t), Node(Paint(s.left, Black), s.node, Red, s.right));
        ctx' := ctx.(sibling := Node(s.left.left, s.left.node, Black, Node(s.left.right, s.node, Red, s.right)));
        Sideways(Mem(), up, Right, p, pc, t, ctx'.sibling);
      } else if node.parent.right == node && sib.color == Black && sib.right.color == Red && sib.left.color == Black {
        SetColor(sib, Red);
        SetColor(sib.right, Black);
        BendPainted(old(Mem()), up, d, p, pc, s, t);
        RotateLeft(sib, In(up, Left, p, pc, t), Node(s.left, s.node, Red, Paint(s.right, Black)));
        ctx' := ctx.(sibling := Node(Node(s.left, s.node, Red, s.right.left), s.right.node, Black, s.right.right));
        Sideways(Mem(), up, Left, p, pc, t, ctx'.sibling);
      }
      Rm6(node, ctx', t);
    }

    method Rm6(node: RbNode, ghost ctx: Ctx, ghost t: Tree)
      requires Mirrored() && Mem().At(ctx, t) && t.Node? && t.node == node
      requires ctx.In? && ctx.sibling.Node? && Child(ctx.sibling, Flip(ctx.dir)).Node?
      modifies `root, `links, links.Keys
      ensures Mirrored() && links.Keys == old(links).Keys && Mem().At(Top, Plug(RbSpec.Rm6(ctx), t))
    {
      ghost var In(up, d, p, pc, s) := ctx;
      Look(up, d, p, pc, s, t);
      var sib := Sibling(node);
      PaintedSibling(Mem(), up, d, p, pc, s, pc, t);
      SetColor(sib, node.parent.color);
      PaintedParent(Mem(), up, d, p, pc, Black, Paint(s, pc), t);
      SetColor(node.parent, Black);
      Look(up, d, p, Black, Paint(s, pc), t);
      FarPainted(Mem(), up, d, p, Black, Paint(s, pc), t);
      if node == node.parent.left {
        SetColor(sib.right, Black);
        RotateParent(node, up, d, p, Black, Node(s.left, s.node, pc, Paint(s.right, Black)), t);
      } else {
        SetColor(sib.left, Black);
        RotateParent(node, up, d, p, Black, Node(Paint(s.left, Black), s.node, pc, s.right), t);
      }
      ZoomOut(Mem(), RbSpec.Rm6(ctx), t);
    }
  
    // ---------- the trade of places ----------

    /** Copies a node's links and colour, but not its key. */
    method CopyNode(tgt: RbNode, ref: RbNode)
      requires Mirrored() && tgt in links && ref in links
      modifies `links, tgt
      ensures Mirrored() && links.Keys == old(links).Keys && Mem() == old(Mem()).Copy(tgt, ref)
    {
      var from := Links(ref.parent, ref.left, ref.right, ref.color);
      tgt.thread := ref.thread;
      tgt.parent, tgt.left, tgt.right, tgt.color := from.parent, from.left, from.right, from.color;
      links := links[tgt := from];
    }

    /** `tgt`, from outside the tree, takes over the place of `ref`. */
    method Assign(tgt: RbNode, ref: RbNode, ghost ctx: Ctx, ghost t: Tree)
      requires Mirrored() && Mem().At(Top, Plug(ctx, t)) && t.Node? && t.node == ref
      requires tgt in links && tgt !in Nodes(Plug(ctx, t))
      modifies `root, `links, links.Keys
      ensures Mirrored() && links.Keys == old(links).Keys
      ensures Mem().At(Top, Plug(ctx, t.(node := tgt)))
      ensures ref in links && ref !in Nodes(Plug(ctx, t.(node := tgt)))
    {
      ghost var m := Mem();
      ZoomOut(m, ctx, t);
      Neighbours(m, ctx, t);
      PlugNodes(ctx, t);
      PlugNodes(ctx, t.(node := tgt));
      HandedOver(m, ctx, t, tgt);
      CopyNode(tgt, ref);
      Attach(ref.parent, ref, tgt, ctx);
      Adopt(ref.left, tgt);
      Adopt(ref.right, tgt);
      ZoomOut(Mem(), ctx, t.(node := tgt));
    }

    /** The leftmost node at or below `node`. */
    method Leftmost(node: RbNode, ghost ctx: Ctx, ghost t: Tree) returns (least: RbNode)
      requires Mirrored() && Mem().At(ctx, t) && t.Node? && t.node == node
      ensures least == First(t)
    {
      least := node;
      ghost var c, s := ctx, t;
      Neighbours(Mem(), c, s);
      while least.left != nil
        invariant Mem().At(c, s) && s.Node? && s.node == least && least.left == Root(s.left)
        invariant s.left.Node? <==> least.left != nil
        invariant First(s) == First(t)
        decreases s
      {
        LeftmostFocus(Top, s.left, In(Top, Left, s.node, s.color, s.right));
        Neighbours(Mem(), c, s);
        least := least.left;
        c, s := In(c, Left, s.node, s.color, s.right), s.left;
        Neighbours(Mem(), c, s);
      }
    }
  
    /** `ref`, which has two children, and the leftmost node below it trade
        places through a spare node. */
    method Trade(ref: RbNode, nex: RbNode, spare: RbNode, ghost ctx: Ctx, ghost t: Tree)
      requires Mirrored() && Mem().At(ctx, t) && t.Node? && t.node == ref && t.left.Node? && t.right.Node?
      requires nex == First(t.left) && spare in links && spare !in Nodes(Plug(ctx, t))
      modifies `root, `links, links.Keys
      ensures Mirrored() && links.Keys == old(links).Keys
      ensures Mem().At(Top, Plug(RbLaws.Trade(OwnLeftmost, ctx, t).0, RbLaws.Trade(OwnLeftmost, ctx, t).1))
    {
      TradePositions(ctx, t, spare);
      ghost var (c, m) := RbLaws.Leftmost(In(ctx, Left, ref, t.color, t.right), t.left);
      ghost var c' := RbLaws.Trade(OwnLeftmost, ctx, t).0;
      ZoomOut(Mem(), ctx, t);
      Assign(spare, nex, c, m);
      Assign(nex, ref, ctx, t.(left := RenameFirst(t.left, spare)));
      Assign(ref, spare, c', m.(node := spare));
    }

    /** Taking out a node with at most one child, after the repair. */
    method Replace(ref: RbNode, child: RbNode, ghost ctx: Ctx, ghost t: Tree)
      requires Mirrored() && Mem().At(ctx, t) && t.Node? && t.node == ref && (t.left.Nil? || t.right.Nil?)
      requires child == if t.left.Node? then Root(t.left) else Root(t.right)
      modifies `root, `links, links.Keys
      ensures Mirrored() && links.Keys == old(links).Keys
      ensures Mem().At(ctx, if t.left.Node? then t.left else t.right)
      ensures links[ref] == old(links)[ref]
    {
      Neighbours(Mem(), ctx, t);
      Unhooked(Mem(), ctx, t);
      if ctx.In? { RootOutside(Mem(), ctx, ref); }
      if ref == root {
        root := child;
      } else if ref == ref.parent.left {
        SetLeft(ref.parent, child);
      } else {
        SetRight(ref.parent, child);
      }
      Adopt(child, ref.parent);
    }
  
    /** A black node takes its child's colour and is repaired around. */
    method Lighten(ref: RbNode, child: RbNode, ghost ctx: Ctx, ghost t: Tree) returns (ghost c: Ctx, ghost t': Tree)
      requires Mirrored() && Mem().At(ctx, t) && t.Node? && t.node == ref && (t.left.Nil? || t.right.Nil?)
      requires child == if t.left.Node? then Root(t.left) else Root(t.right)
      requires RedBlack(Plug(ctx, t))
      modifies `root, `links, links.Keys
      ensures Mirrored() && links.Keys == old(links).Keys && Mem().At(c, t')
      ensures t'.Node? && t'.(color := t.color) == t
      ensures Plug(c, Filler(c, t')) == RbLaws.Unlink(ctx, t)
    {
      Neighbours(Mem(), ctx, t);
      UnplugBalanced(ctx, t);
      c, t' := ctx, t;
      if ref.color == Black {
        ghost var h := BlackHeight(t) - 1;
        c, t' := RbSpec.Rm1(ctx, h), Paint(t, child.color);
        Painted(Mem(), ctx, t, child.color);
        SetColor(ref, child.color);
        Rm1(ref, ctx, t', h);
        ZoomOut(Mem(), c, t');
      }
    }

    /** The only child moves up; at the root it turns black. */
    method Settle(ref: RbNode, child: RbNode, ghost c: Ctx, ghost t: Tree)
      requires Mirrored() && Mem().At(c, t) && t.Node? && t.node == ref && (t.left.Nil? || t.right.Nil?)
      requires child == if t.left.Node? then Root(t.left) else Root(t.right)
      modifies `root, `links, links.Keys
      ensures Mirrored() && links.Keys == old(links).Keys
      ensures Mem().At(Top, Plug(c, Filler(c, t))) && ref !in Nodes(Plug(c, Filler(c, t)))
    {
      Neighbours(Mem(), c, t);
      Replace(ref, child, c, t);
      PlugNodes(c, Filler(c, t));
      if ref.parent == nil && child != nil {
        Painted(Mem(), c, if t.left.Node? then t.left else t.right, Black);
        SetColor(child, Black);
      }
      ZoomOut(Mem(), c, Filler(c, t));
    }

    method Cut(ref: RbNode, ghost ctx: Ctx, ghost t: Tree)
      requires Mirrored() && Mem().At(ctx, t) && t.Node? && t.node == ref && (t.left.Nil? || t.right.Nil?)
      requires RedBlack(Plug(ctx, t))
      modifies `root, `links, links.Keys
      ensures Mirrored() && links.Keys == old(links).Keys
      ensures Mem().At(Top, RbLaws.Unlink(ctx, t)) && ref !in Nodes(RbLaws.Unlink(ctx, t))
    {
      Neighbours(Mem(), ctx, t);
      var child := if ref.left != nil then ref.left else ref.right;
      ghost var c, t' := Lighten(ref, child, ctx, t);
      Settle(ref, child, c, t');
    }
  
    method Spare(ghost ctx: Ctx, ghost t: Tree) returns (spare: RbNode)
      requires Mirrored() && Mem().At(ctx, t)
      modifies `links
      ensures Mirrored() && fresh(spare) && links.Keys == old(links).Keys + {spare} && Mem().At(ctx, t)
    {
      spare := new RbNode(0, nil);
      Extended(Mem(), ctx, t, spare, Links(nil, nil, nil, Red));
      links := links[spare := Links(nil, nil, nil, Red)];
    }

    /** The trade through a spare node that lives only as long as it lasts. */
    method TradeWithFirst(ref: RbNode, ghost ctx: Ctx, ghost t: Tree)
      requires Mirrored() && Mem().At(ctx, t) && t.Node? && t.node == ref && t.left.Node? && t.right.Node?
      requires links.Keys == Nodes(Plug(ctx, t))
      modifies `root, `links, links.Keys
      ensures Mirrored() && old(links).Keys <= links.Keys && fresh(links.Keys - old(links).Keys)
      ensures Mem().At(RbLaws.Trade(OwnLeftmost, ctx, t).0, RbLaws.Trade(OwnLeftmost, ctx, t).1)
    {
      var nex := Leftmost(ref, ctx, t);
      var spare := Spare(ctx, t);
      LeftmostFocus(Top, t.left, In(Top, Left, t.node, t.color, t.right));
      Trade(ref, nex, spare, ctx, t);
      ZoomOut(Mem(), RbLaws.Trade(OwnLeftmost, ctx, t).0, RbLaws.Trade(OwnLeftmost, ctx, t).1);
    }

    method RemoveAt(ref: RbNode, ghost ctx: Ctx, ghost t: Tree)
      requires Mirrored() && Mem().At(ctx, t) && t.Node? && t.node == ref && RedBlack(Plug(ctx, t))
      requires links.Keys == Nodes(Plug(ctx, t))
      modifies `root, `links, links.Keys
      ensures Mirrored() && old(links).Keys <= links.Keys && fresh(links.Keys - old(links).Keys)
      ensures Mem().At(Top, RbLaws.Remove(OwnLeftmost, ctx, t)) && ref !in Nodes(RbLaws.Remove(OwnLeftmost, ctx, t))
    {
      Neighbours(Mem(), ctx, t);
      ghost var c, m := ctx, t;
      if ref.left != nil && ref.right != nil {
        TradeBalanced(OwnLeftmost, ctx, t);
        TradeWithFirst(ref, ctx, t);
        c, m := RbLaws.Trade(OwnLeftmost, ctx, t).0, RbLaws.Trade(OwnLeftmost, ctx, t).1;
      }
      Cut(ref, c, m);
    }

    /** Only the nodes of `t` count from now on. */
    ghost method Forget(t: Tree)
      requires Mirrored() && Mem().At(Top, t) && RedBlack(t)
      modifies `links, `shape
      ensures Valid() && shape == t && links.Keys == Nodes(t) && links.Keys <= old(links).Keys
    {
      Restricted(Mem(), t);
      shape := t;
      links := Restrict(links, t);
    }

    /** Removes a node of the tree.  A node with two children first trades places
        with the leftmost node of its own subtree. */
    method Remove(ref: RbNode)
      requires Valid() && ref in links
      modifies this, links.Keys
      ensures Valid() && links.Keys == old(links).Keys - {ref}
      ensures var (ctx, t) := Locate(Top, old(shape), ref); shape == RbLaws.Remove(OwnLeftmost, ctx, t)
    {
      ghost var (ctx, t) := Locate(Top, shape, ref);
      RemoveBalanced(OwnLeftmost, ctx, t);
      RemoveNodes(OwnLeftmost, ctx, t);
      ZoomOut(Mem(), ctx, t);
      RemoveAt(ref, ctx, t);
      Forget(RbLaws.Remove(OwnLeftmost, ctx, t));
    }
  }
}
