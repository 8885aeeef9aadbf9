/** The resumable in-order iterator of src/lc_rbt.c, which stores its way back
    in the nodes' spare links. */
module RbIterators {
  import opened Collections
  import opened RbSpec
  import opened RbLaws
  import opened RbMemory
  import opened RbTrees
  import opened Morris

  class RbIterator {
    const tree: RbTree
    const nil: RbNode
    var interrupt0: bool
    var interrupt1: bool
    var ptr: RbNode
    var mr: RbNode

    ghost var threads: Threads
    ghost var pos: Position

    /** The tree's links describe its shape, a red-black tree. */
    ghost predicate Upright()
      reads tree
    {
      forall u :: Asked(u) ==>
        tree.Mem().At(Top, tree.shape) && tree.links.Keys == Nodes(tree.shape) && RedBlack(tree.shape)
    }

    /** The tree's own links are untouched, and `threads` mirrors the spare ones. */
    ghost predicate Still()
      reads `threads, tree, tree.links.Keys, nil
    {
      && nil == tree.nil && nil !in tree.links && tree.Intact()
      && Upright()
      && forall n :: n in tree.links ==>
           tree.links[n] == Links(n.parent, n.left, n.right, n.color) && n in threads && n.thread == threads[n]
    }

    ghost predicate Standing()
      reads `threads, `pos, `ptr, tree, tree.links.Keys, nil
    {
      Still() && Placed(pos, threads, nil, ptr) && Plug(pos.ctx, pos.t) == tree.shape
    }

    ghost predicate Valid()
      reads this, tree, tree.links.Keys, nil
    {
      && Standing() && pos.phase != Returning
      && interrupt0 == (pos.phase == Visited) && interrupt1 == (pos.phase == Deep)
      && (pos.phase == Deep ==> mr == Last(pos.t.left))
    }

    constructor (tree: RbTree)
      requires tree.Valid()
      ensures Valid() && this.tree == tree && Rest(pos) == InOrder(tree.shape)
    {
      this.tree := tree;
      nil := tree.nil;
      interrupt0, interrupt1 := false, false;
      ptr := tree.root;
      mr := tree.nil;
      threads := map n | n in tree.links :: tree.nil;
      pos := Position(Top, tree.shape, if tree.shape.Nil? then Finished else Entering);
      new;
      ThreadedNil(threads, nil, tree.shape);
      if tree.shape.Node? { Neighbours(tree.Mem(), Top, tree.shape); }
    }

    /** The step to the right: a real child if there is one, else the thread. */
    function Onto(n: RbNode): RbNode
      reads n
    {
      if n.right != nil then n.right else n.thread
    }

    /** What the heap shows at a node of the tree. */
    lemma Look(c: Ctx, s: Tree)
      requires Still() && Plug(c, s) == tree.shape && s.Node?
      ensures s.node in tree.links && s.node != nil && tree.Mem().At(c, s)
      ensures s.node.left == tree.Root(s.left) && s.node.right == tree.Root(s.right)
      ensures s.left.Node? ==> s.left.node != nil
      ensures s.right.Node? ==> s.right.node != nil && s.right.node in Nodes(s)
    {
      assert Asked(0);
      ZoomOut(tree.Mem(), c, s);
      Neighbours(tree.Mem(), c, s);
      assert s.right.Node? ==> s.right.node in Nodes(s.right);
    }

    /** The walk along the right spine of the left subtree, to its last node. */
    method Predecessor(ghost to: RbNode)
      requires Still() && Plug(pos.ctx, pos.t) == tree.shape && pos.t.Node? && pos.t.left.Node? && ptr == pos.t.node
      requires Threaded(threads, nil, pos.t.left, to) && (to == nil || to == ptr)
      modifies `mr
      ensures mr == Last(pos.t.left) && mr in tree.links && Onto(mr) == to
    {
      ghost var Position(ctx, t, _) := pos;
      Look(ctx, t);
      mr := ptr.left;
      ghost var c, s := In(ctx, Left, t.node, t.color, t.right), t.left;
      Look(c, s);
      while Onto(mr) != nil && Onto(mr) != ptr
        invariant Plug(c, s) == tree.shape && s.Node? && mr == s.node
        invariant Nodes(s) <= Nodes(t.left) && Last(s) == Last(t.left)
        invariant Threaded(threads, nil, s, to)
        invariant s.node in tree.links && s.node.right == tree.Root(s.right)
        invariant s.right.Node? ==> s.right.node != nil && s.right.node != ptr
        decreases s
      {
        mr := Onto(mr);
        c, s := In(c, Right, s.node, s.color, s.left), s.right;
        Look(c, s);
      }
    }

    /** On from a node that has been handed out: into its right subtree, or back
        up along its thread. */
    method StepRight()
      requires Standing() && pos.phase == Visited
      modifies `ptr, `pos
      ensures Standing() && Rest(pos) == old(Rest(pos)) && pos.phase in {Entering, Returning, Finished}
    {
      Look(pos.ctx, pos.t);
      InLinksCtx(tree.Mem(), pos.ctx, ptr);
      Advanced(pos, threads, nil, ptr);
      ptr := Onto(ptr);
      pos := Advance(pos, nil);
    }
  
    /** Only the spare link is written, and the sentinel's never. */
    method SetThread(n: RbNode, to: RbNode)
      requires Still() && n in tree.links
      modifies `threads, n`thread
      ensures Still() && threads == old(threads)[n := to]
    {
      n.thread := to;
      threads := threads[n := to];
    }

    /** Where leaving a thread and going left lead. */
    lemma DownPlaced()
      requires Standing() && pos.phase == Entering && pos.t.left.Node? && mr == Last(pos.t.left)
      ensures Placed(Down(pos), threads[mr := ptr], nil, ptr.left)
      ensures Plug(Down(pos).ctx, Down(pos).t) == tree.shape && Rest(Down(pos)) == Rest(pos)
    {
      Look(pos.ctx, pos.t);
      Descended(tree.Mem(), pos, threads);
    }

    /** First visit of a node with a left subtree: leave a thread, go down. */
    method Descend()
      requires Standing() && pos.phase == Entering && pos.t.left.Node? && mr == Last(pos.t.left) && mr in tree.links
      modifies `ptr, `threads, `pos, mr`thread
      ensures Standing() && pos == Down(old(pos)) && Rest(pos) == old(Rest(pos))
    {
      DownPlaced();
      SetThread(mr, ptr);
      ptr := ptr.left;
      pos := Down(pos);
    }

    /** Second visit: take the thread away again. */
    method Unthread()
      requires Standing() && pos.phase == Deep && mr == Last(pos.t.left) && mr in tree.links && Onto(mr) == ptr
      modifies `ptr, `threads, `pos, mr`thread
      ensures Standing() && pos == old(pos).(phase := Visited)
    {
      Look(pos.ctx, pos.t);
      LeftRethreaded(tree.Mem(), pos, threads, ptr, nil);
      ptr := Onto(mr);
      SetThread(mr, nil);
      pos := pos.(phase := Visited);
    }

    lemma PredecessorLink()
      requires Standing() && pos.phase == Deep && mr == Last(pos.t.left)
      ensures mr in tree.links && Onto(mr) == ptr
    {
      Look(pos.ctx, pos.t);
      var Position(ctx, t, _) := pos;
      SpineEnd(In(ctx, Left, t.node, t.color, t.right), t.left, ptr);
    }

    lemma SpineEnd(c: Ctx, s: Tree, to: RbNode)
      requires Still() && Plug(c, s) == tree.shape && s.Node? && Threaded(threads, nil, s, to)
      ensures Last(s) in tree.links && Onto(Last(s)) == to
      decreases s
    {
      Look(c, s);
      if s.right.Node? { SpineEnd(In(c, Right, s.node, s.color, s.left), s.right, to); }
    }

    /** Finishes the turn that the previous call left half done. */
    method FinishTurn()
      requires Valid()
      modifies `interrupt0, `interrupt1, `ptr, `threads, `pos, tree.links.Keys`thread
      ensures Standing() && Rest(pos) == old(Rest(pos)) && pos.phase in {Entering, Returning, Finished}
      ensures !interrupt0 && !interrupt1
    {
      if interrupt0 {
        interrupt0 := false;
        StepRight();
      } else if interrupt1 {
        interrupt1 := false;
        ComeBack();
      }
    }

    /** After the second visit of a node. */
    method ComeBack()
      requires Standing() && pos.phase == Deep && mr == Last(pos.t.left)
      modifies `ptr, `threads, `pos, tree.links.Keys`thread
      ensures Standing() && Rest(pos) == old(Rest(pos)) && pos.phase in {Entering, Returning, Finished}
    {
      PredecessorLink();
      Unthread();
      StepRight();
    }

    /** One turn of the loop: hand out the current node, or go down to the left. */
    method Turn() returns (out: bool)
      requires Standing() && pos.phase in {Entering, Returning} && !interrupt0 && !interrupt1
      modifies `interrupt0, `interrupt1, `ptr, `mr, `threads, `pos, tree.links.Keys`thread
      ensures out ==> Valid() && ptr != nil && [ptr] + Rest(pos) == old(Rest(pos))
      ensures !out ==> Standing() && Rest(pos) == old(Rest(pos)) && pos.phase == Entering && !interrupt0 && !interrupt1
      ensures !out ==> old(pos).t.Node? && pos.t == old(pos).t.left
    {
      Look(pos.ctx, pos.t);
      if ptr.left == nil {
        interrupt0 := true;
        Suspend(Visited);
        return true;
      }
      out := Around();
    }

    /** At a node with a left subtree: the first or the second visit. */
    method Around() returns (out: bool)
      requires Standing() && pos.phase in {Entering, Returning} && !interrupt0 && !interrupt1 && pos.t.left.Node?
      modifies `interrupt1, `ptr, `mr, `threads, `pos, tree.links.Keys`thread
      ensures out ==> Valid() && ptr != nil && [ptr] + Rest(pos) == old(Rest(pos))
      ensures !out ==> Standing() && Rest(pos) == old(Rest(pos)) && pos.phase == Entering && !interrupt1
      ensures !out ==> pos.t == old(pos).t.left
    {
      Predecessor(if pos.phase == Entering then nil else ptr);
      if Onto(mr) == nil {
        Descend();
        return false;
      } else {
        interrupt1 := true;
        Suspend(Deep);
        return true;
      }
    }

    ghost method Suspend(phase: Phase)
      requires Standing() && pos.t.Node?
      requires (phase == Visited && pos.phase == Entering && pos.t.left.Nil?) || (phase == Deep && pos.phase == Returning)
      modifies `pos
      ensures Standing() && pos == old(pos).(phase := phase) && ptr == pos.t.node && ptr != nil
      ensures [ptr] + Rest(pos) == old(Rest(pos))
    {
      if phase == Visited { Shallow(pos); }
      pos := pos.(phase := phase);
    }

    lemma AtTheEnd()
      requires Standing() && ptr == nil
      ensures Rest(pos) == [] && tree.Valid() && pos.phase == Finished
    {
      assert Asked(0);
      ThreadedNil(threads, nil, tree.shape);
    }

    /** Hands out the next node in order, or the sentinel when there is none. */
    method Next() returns (r: RbNode)
      requires Valid()
      modifies `interrupt0, `interrupt1, `ptr, `mr, `threads, `pos, tree.links.Keys`thread
      ensures Valid()
      ensures if old(Rest(pos)) == [] then r == nil && Rest(pos) == [] && ptr == nil && tree.Valid()
              else r != nil && ptr == r && [r] + Rest(pos) == old(Rest(pos))
    {
      FinishTurn();
      while ptr != nil
        invariant Standing() && Rest(pos) == old(Rest(pos)) && pos.phase in {Entering, Returning, Finished}
        invariant !interrupt0 && !interrupt1
        decreases pos.t
      {
        var out := Turn();
        if out {
          return ptr;
        }
      }
      AtTheEnd();
      return nil;
    }
  }

  /** The loop has `node` at hand, and `todo` from it on still to pass. */
  ghost predicate AtHand(itr: RbIterator, node: RbNode, todo: seq<RbNode>)
    reads itr, itr.tree, itr.tree.links.Keys, itr.nil, itr.tree.nil
  {
    && itr.Valid() && node == itr.ptr
    && if node == itr.nil then todo == [] && itr.tree.Valid() else todo == [node] + Rest(itr.pos)
  }

  method Fetch(itr: RbIterator, ghost todo: seq<RbNode>) returns (node: RbNode)
    requires itr.Valid() && Rest(itr.pos) == todo
    modifies itr, itr.tree.links.Keys`thread
    ensures AtHand(itr, node, todo)
  {
    node := itr.Next();
  }

  method Passed(itr: RbIterator, node: RbNode, ghost todo: seq<RbNode>) returns (next: RbNode)
    requires AtHand(itr, node, todo) && node != itr.nil
    modifies itr, itr.tree.links.Keys`thread
    ensures AtHand(itr, next, todo[1..])
  {
    next := Fetch(itr, todo[1..]);
  }

  lemma Shifted(out: seq<RbNode>, todo: seq<RbNode>)
    requires todo != []
    ensures (out + [todo[0]]) + todo[1..] == out + todo
  {
  }

  /** The loop over a whole tree passes its nodes in order, each once, and leaves
      the tree as it was, with no thread in it. */
  method Foreach(tree: RbTree) returns (out: seq<RbNode>)
    requires tree.Valid()
    modifies tree.links.Keys`thread
    ensures tree.Valid() && out == InOrder(tree.shape) && Distinct(out) && Members(out) == tree.links.Keys
  {
    NoRepeats(tree.Mem(), tree.shape, tree.nil);
    NodesInOrder(tree.shape);
    out := [];
    var itr := new RbIterator(tree);
    ghost var todo := InOrder(tree.shape);
    ghost var all := todo;
    var node := Fetch(itr, todo);
    while itr.ptr != itr.nil
      invariant itr.tree == tree && fresh(itr) && AtHand(itr, node, todo)
      invariant out + todo == all
      decreases |todo|
    {
      Shifted(out, todo);
      out := out + [node];
      node := Passed(itr, node, todo);
      todo := todo[1..];
    }
  }
}
