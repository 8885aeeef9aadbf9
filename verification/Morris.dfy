/** The threads of a Morris traversal, as a value: which node's spare link leads
    where while the traversal stands at a given position. */
module Morris {
  import opened RbSpec
  import opened RbMemory

  type Threads = map<RbNode, RbNode>

  /** The nearest ancestor that follows the hole: the node that a completed
      subtree leads back to. */
  function NextUp(ctx: Ctx, nil: RbNode): RbNode {
    if ctx.Top? then nil
    else if ctx.dir == Left then ctx.node
    else NextUp(ctx.up, nil)
  }

  /** In `t` only the last node may carry a thread, and it leads to `to`. */
  ghost predicate Threaded(th: Threads, nil: RbNode, t: Tree, to: RbNode)
    decreases t, 1
  {
    t.Node? ==> Threaded(th, nil, t.left, nil) && Onward(th, nil, t, to)
  }

  /** The same for the root of `t` and its right subtree. */
  ghost predicate Onward(th: Threads, nil: RbNode, t: Tree, to: RbNode)
    requires t.Node?
    decreases t, 0
  {
    && t.node in th
    && th[t.node] == (if t.right.Nil? then to else nil)
    && (t.right.Node? ==> Threaded(th, nil, t.right, to))
  }

  /** Around the hole: what lies to the left is finished and carries no thread,
      what lies to the right is as the way down left it. */
  ghost predicate Outside(th: Threads, nil: RbNode, ctx: Ctx) {
    ctx.In? ==>
      && Outside(th, nil, ctx.up)
      && (if ctx.dir == Left
          then Onward(th, nil, Node(Nil, ctx.node, ctx.color, ctx.sibling), NextUp(ctx.up, nil))
          else ctx.node in th && th[ctx.node] == nil && Threaded(th, nil, ctx.sibling, nil))
  }

  /** The position to go on from once `t` is complete. */
  function Resume(ctx: Ctx, t: Tree): (Ctx, Tree)
    decreases ctx
  {
    match ctx
    case Top => (Top, t)
    case In(up, d, n, c, s) => if d == Left then (up, Node(t, n, c, s)) else Resume(up, Node(s, n, c, t))
  }

  /** A completed subtree leads back to the place where its successor's left
      subtree has just been completed, or everything is done and no thread is left. */
  lemma {:induction false} ResumeThreaded(th: Threads, nil: RbNode, ctx: Ctx, t: Tree)
    requires t.Node? && Threaded(th, nil, t, NextUp(ctx, nil)) && Outside(th, nil, ctx)
    requires nil !in CtxNodes(ctx)
    ensures var (c, s) := Resume(ctx, t);
            && Plug(c, s) == Plug(ctx, t) && s.Node?
            && if NextUp(ctx, nil) == nil then c.Top? && Threaded(th, nil, s, nil)
               else && s.node == NextUp(ctx, nil) && s.left.Node?
                    && Threaded(th, nil, s.left, s.node) && Onward(th, nil, s, NextUp(c, nil)) && Outside(th, nil, c)
    ensures var (c, s) := Resume(ctx, t);
            After(ctx) == if NextUp(ctx, nil) == nil then [] else [s.node] + InOrder(s.right) + After(c)
    decreases ctx
  {
    match ctx
    case Top =>
    case In(up, d, n, c, s) =>
      if d == Right {
        ResumeThreaded(th, nil, up, Node(s, n, c, t));
      }
  }

  function Last(t: Tree): RbNode
    requires t.Node?
  {
    if t.right.Nil? then t.node else Last(t.right)
  }

  lemma LastIn(t: Tree)
    requires t.Node?
    ensures Last(t) in Nodes(t)
  {
  }

  lemma {:induction false} FrameThreaded(th: Threads, th': Threads, nil: RbNode, t: Tree, to: RbNode)
    requires Threaded(th, nil, t, to) && forall n :: n in Nodes(t) && n in th ==> n in th' && th'[n] == th[n]
    ensures Threaded(th', nil, t, to)
  {
    if t.Node? {
      FrameThreaded(th, th', nil, t.left, nil);
      FrameThreaded(th, th', nil, t.right, to);
    }
  }

  lemma {:induction false} FrameOutside(th: Threads, th': Threads, nil: RbNode, ctx: Ctx)
    requires Outside(th, nil, ctx) && forall n :: n in CtxNodes(ctx) && n in th ==> n in th' && th'[n] == th[n]
    ensures Outside(th', nil, ctx)
  {
    if ctx.In? {
      FrameOutside(th, th', nil, ctx.up);
      FrameThreaded(th, th', nil, ctx.sibling, if ctx.dir == Left then NextUp(ctx.up, nil) else nil);
    }
  }

  /** Changing the last node's thread changes where the subtree leads. */
  lemma {:induction false} Rethreaded(th: Threads, m: Memory, p: RbNode, t: Tree, to: RbNode, to': RbNode)
    requires m.Holds(t, p) && t.Node? && Threaded(th, m.nil, t, to)
    ensures Threaded(th[Last(t) := to'], m.nil, t, to')
    decreases t
  {
    var th' := th[Last(t) := to'];
    LastIn(t);
    if t.right.Node? {
      LastIn(t.right);
      Rethreaded(th, m, t.node, t.right, to, to');
    }
    FrameThreaded(th, th', m.nil, t.left, m.nil);
  }

  /** With no thread anywhere, the whole tree is as it was before the traversal. */
  lemma {:induction false} ThreadedNil(th: Threads, nil: RbNode, t: Tree)
    ensures Threaded(th, nil, t, nil) <==> forall n :: n in Nodes(t) ==> n in th && th[n] == nil
  {
    if t.Node? {
      ThreadedNil(th, nil, t.left);
      ThreadedNil(th, nil, t.right);
    }
  }

  // ---------- positions of the traversal ----------

  /** Where the traversal stands: about to enter `t`; back at `t.node`, whose left
      subtree is done and still threaded; suspended there after handing the node
      out; past handing out `t.node`, with no thread left below it on the left; or
      finished. */
  datatype Phase = Entering | Returning | Deep | Visited | Finished

  datatype Position = Position(ctx: Ctx, t: Tree, phase: Phase)

  /** The nodes still to be handed out. */
  function Rest(pos: Position): seq<RbNode> {
    match pos.phase
    case Entering => InOrder(pos.t) + After(pos.ctx)
    case Returning => if pos.t.Nil? then [] else [pos.t.node] + (InOrder(pos.t.right) + After(pos.ctx))
    case Finished => []
    case _ => if pos.t.Nil? then [] else InOrder(pos.t.right) + After(pos.ctx)
  }

  /** What the pointer and the threads are at a position. */
  ghost predicate Placed(pos: Position, th: Threads, nil: RbNode, ptr: RbNode) {
    var Position(ctx, t, phase) := pos;
    if phase == Finished then ptr == nil && ctx.Top? && Threaded(th, nil, t, nil)
    else
      && t.Node? && ptr == t.node && ptr != nil && Outside(th, nil, ctx)
      && Onward(th, nil, t, NextUp(ctx, nil))
      && Threaded(th, nil, t.left, if phase == Returning || phase == Deep then ptr else nil)
      && (phase == Returning || phase == Deep ==> t.left.Node?)
  }

  /** The next stop after the node at a `Visited` position. */
  function Advance(pos: Position, nil: RbNode): Position
    requires pos.t.Node?
  {
    var Position(ctx, t, _) := pos;
    if t.right.Node? then Position(In(ctx, Right, t.node, t.color, t.left), t.right, Entering)
    else
      var (c, s) := Resume(ctx, t);
      Position(c, s, if NextUp(ctx, nil) == nil then Finished else Returning)
  }

  lemma {:induction false} Advanced(pos: Position, th: Threads, nil: RbNode, ptr: RbNode)
    requires pos.phase == Visited && Placed(pos, th, nil, ptr) && nil !in CtxNodes(pos.ctx)
    requires pos.t.right.Node? ==> pos.t.right.node != nil
    ensures var next := Advance(pos, nil);
            && Placed(next, th, nil, if pos.t.right.Node? then pos.t.right.node else th[pos.t.node])
            && Plug(next.ctx, next.t) == Plug(pos.ctx, pos.t)
            && Rest(next) == Rest(pos)
  {
    if pos.t.right.Nil? {
      ResumeThreaded(th, nil, pos.ctx, pos.t);
      AdvancedRest(pos, th, nil);
    } else {
      AdvancedRight(pos, th, nil);
    }
  }

  lemma {:induction false} AdvancedRight(pos: Position, th: Threads, nil: RbNode)
    requires pos.phase == Visited && pos.t.Node? && pos.t.right.Node? && Placed(pos, th, nil, pos.t.node)
    requires nil !in CtxNodes(pos.ctx) && pos.t.right.node != nil
    ensures var next := Advance(pos, nil);
      Placed(next, th, nil, pos.t.right.node) && Plug(next.ctx, next.t) == Plug(pos.ctx, pos.t) && Rest(next) == Rest(pos)
  {
    var r, ctx' := pos.t.right, In(pos.ctx, Right, pos.t.node, pos.t.color, pos.t.left);
    assert Advance(pos, nil) == Position(ctx', r, Entering);
    assert Threaded(th, nil, r, NextUp(pos.ctx, nil)) && NextUp(ctx', nil) == NextUp(pos.ctx, nil);
    assert Threaded(th, nil, r.left, nil) && Onward(th, nil, r, NextUp(ctx', nil));
    assert Outside(th, nil, ctx');
    assert After(ctx') == After(pos.ctx);
  }

  /** Past a complete subtree the rest is what comes after it. */
  lemma {:induction false} AdvancedRest(pos: Position, th: Threads, nil: RbNode)
    requires pos.t.Node? && pos.t.right.Nil? && pos.phase == Visited && nil !in CtxNodes(pos.ctx)
    requires Threaded(th, nil, pos.t, NextUp(pos.ctx, nil)) && Outside(th, nil, pos.ctx)
    ensures Rest(Advance(pos, nil)) == Rest(pos)
  {
    ResumeThreaded(th, nil, pos.ctx, pos.t);
    var (c, s) := Resume(pos.ctx, pos.t);
    NoneBefore(After(pos.ctx));
    if NextUp(pos.ctx, nil) != nil {
      OneBefore(s.node, InOrder(s.right), After(c));
    }
  }

  lemma NoneBefore(a: seq<RbNode>)
    ensures [] + a == a
  {
  }

  lemma OneBefore(x: RbNode, r: seq<RbNode>, a: seq<RbNode>)
    ensures [x] + r + a == [x] + (r + a)
  {
  }

  /** Changing the thread of the left subtree's last node disturbs nothing else. */
  lemma {:induction false} LeftRethreaded(m: Memory, pos: Position, th: Threads, from: RbNode, to: RbNode)
    requires m.At(pos.ctx, pos.t) && pos.t.Node? && pos.t.left.Node?
    requires Outside(th, m.nil, pos.ctx) && Onward(th, m.nil, pos.t, NextUp(pos.ctx, m.nil))
    requires Threaded(th, m.nil, pos.t.left, from)
    ensures var th' := th[Last(pos.t.left) := to];
            && Outside(th', m.nil, pos.ctx) && Onward(th', m.nil, pos.t, NextUp(pos.ctx, m.nil))
            && Threaded(th', m.nil, pos.t.left, to)
  {
    var Position(ctx, t, _) := pos;
    var th' := th[Last(t.left) := to];
    LastIn(t.left);
    assert m.Holds(t.left, t.node);
    Rethreaded(th, m, t.node, t.left, from, to);
    FrameOutside(th, th', m.nil, ctx);
    if t.right.Node? { FrameThreaded(th, th', m.nil, t.right, NextUp(ctx, m.nil)); }
  }

  function Down(pos: Position): Position
    requires pos.t.Node?
  {
    Position(In(pos.ctx, Left, pos.t.node, pos.t.color, pos.t.right), pos.t.left, Entering)
  }

  /** Going down leaves a thread behind. */
  lemma {:induction false} Descended(m: Memory, pos: Position, th: Threads)
    requires m.At(pos.ctx, pos.t) && pos.phase == Entering && Placed(pos, th, m.nil, m.Root(pos.t)) && pos.t.left.Node?
    ensures Placed(Down(pos), th[Last(pos.t.left) := pos.t.node], m.nil, pos.t.left.node)
    ensures Rest(Down(pos)) == Rest(pos)
  {
    var Position(ctx, t, _) := pos;
    LeftRethreaded(m, pos, th, m.nil, t.node);
    assert m.Holds(t.left, t.node);
    assert InOrder(t.left) + ([t.node] + InOrder(t.right) + After(ctx))
        == InOrder(t.left) + [t.node] + InOrder(t.right) + After(ctx);
  }

  /** Handing out a node without a left child. */
  lemma {:induction false} Shallow(pos: Position)
    requires pos.phase == Entering && pos.t.Node? && pos.t.left.Nil?
    ensures Rest(pos) == [pos.t.node] + Rest(pos.(phase := Visited))
  {
    assert InOrder(pos.t) == [pos.t.node] + InOrder(pos.t.right);
    assert [pos.t.node] + InOrder(pos.t.right) + After(pos.ctx) == [pos.t.node] + (InOrder(pos.t.right) + After(pos.ctx));
  }
}
