/** The pass of the event loop that registers every monitored key with the
    poller once (src/platform/linux/lc_eloop.c). */
module Registration {
  import opened Collections
  import opened RbSpec
  import opened RbLaws
  import opened RbMemory
  import opened RbTrees
  import opened Morris
  import opened RbIterators

  function Keys(s: seq<RbNode>): set<int> {
    set n | n in s :: n.key
  }

  lemma KeysOfMore(a: seq<RbNode>, x: RbNode, b: seq<RbNode>)
    ensures Keys(a + [x] + b) == Keys(a + b) + {x.key}
    ensures Keys(a + [x]) == Keys(a) + {x.key}
  {
    assert x in a + [x] + b && x in a + [x];
    forall k | k in Keys(a + b) ensures k in Keys(a + [x] + b) {
      var n :| n in a + b && n.key == k;
      assert n in a + [x] + b;
    }
    forall k | k in Keys(a) ensures k in Keys(a + [x]) {
      var n :| n in a && n.key == k;
      assert n in a + [x];
    }
  }

  class EventLoop {
    const nil: RbNode
    const mon: RbTree
    const reg: RbTree
    /** The keys handed to the poller, in order. */
    var added: seq<int>
    /** The keys of the registration tree. */
    ghost var known: set<int>

    ghost predicate Registering()
      reads this, reg, reg.links.Keys, nil
    {
      && reg.nil == nil && reg.Valid() && Sorted(InOrder(reg.shape))
      && Distinct(added) && Members(added) == known == Keys(InOrder(reg.shape))
    }

    ghost predicate Apart()
      reads mon, reg
    {
      mon.nil == nil && reg.nil == nil && mon != reg && mon.links.Keys !! reg.links.Keys
    }

    ghost predicate Valid()
      reads this, mon, reg, mon.links.Keys, reg.links.Keys, nil
    {
      Registering() && Apart() && mon.Valid()
    }

    constructor (nil: RbNode, mon: RbTree, reg: RbTree)
      requires mon.nil == nil && reg.nil == nil && mon != reg && mon.Valid() && reg.Valid()
      requires mon.shape == Nil && reg.shape == Nil
      ensures Valid() && this.mon == mon && this.reg == reg && added == []
    {
      this.nil, this.mon, this.reg, added, known := nil, mon, reg, [], {};
    }

    /** Registers `key` unless it already is. */
    method RegisterKey(key: int)
      requires Registering()
      modifies `added, `known, reg, reg.links.Keys
      ensures Registering() && known == old(known) + {key}
      ensures added == old(added) + if key in old(added) then [] else [key]
      ensures old(reg.links).Keys <= reg.links.Keys && fresh(reg.links.Keys - old(reg.links).Keys)
    {
      KeyIsKnown(reg, key);
      var found, _ := reg.Find(key);
      if found != nil {
        return;
      }
      AddMark(key);
      Appended(added, key);
      added := added + [key];
      known := known + {key};
    }

    method AddMark(key: int)
      requires reg.nil == nil && reg.Valid() && Sorted(InOrder(reg.shape)) && Descend(Top, reg.shape, key).1.Nil?
      modifies reg, reg.links.Keys
      ensures reg.Valid() && Sorted(InOrder(reg.shape))
      ensures Keys(InOrder(reg.shape)) == old(Keys(InOrder(reg.shape))) + {key}
      ensures old(reg.links).Keys <= reg.links.Keys && fresh(reg.links.Keys - old(reg.links).Keys)
    {
      var mark := new RbNode(key, nil);
      KeyIsAdded(reg.shape, mark);
      var ok := reg.Insert(mark);
    }

    /** In the middle of a pass. */
    ghost predicate Passing(itr: RbIterator)
      reads this, mon, reg, mon.links.Keys, reg.links.Keys, nil, itr
    {
      itr.tree == mon && itr.nil == nil && itr.Valid() && Registering() && Apart()
    }

    /** What is at hand and what the iterator has still to hand out. */
    ghost predicate Ahead(itr: RbIterator, io: RbNode, todo: seq<RbNode>)
      reads this, mon, mon.links.Keys, mon.nil, nil, itr
    {
      io == itr.ptr && if io == nil then todo == [] && mon.Valid() else todo == [io] + Rest(itr.pos)
    }

    method Fetch(itr: RbIterator, ghost todo: seq<RbNode>) returns (next: RbNode)
      requires Passing(itr) && Rest(itr.pos) == todo
      modifies mon.links.Keys`thread, itr
      ensures Passing(itr) && Ahead(itr, next, todo)
    {
      next := itr.Next();
    }

    /** Registers a key while the other tree is being traversed; `more` are the marks
        that the registration tree gained. */
    method RegisterHere(itr: RbIterator, key: int) returns (ghost more: set<RbNode>)
      requires Passing(itr)
      modifies `added, `known, reg, reg.links.Keys
      ensures Passing(itr) && fresh(more) && reg.links.Keys <= old(reg.links).Keys + more
      ensures known == old(known) + {key} && old(added) <= added
    {
      RegisterKey(key);
      more := reg.links.Keys - old(reg.links).Keys;
      assert itr.Valid();
    }

    /** In the middle of a pass that is to end with the keys `goal`. */
    ghost predicate Going(itr: RbIterator, io: RbNode, todo: seq<RbNode>, goal: set<int>)
      reads this, mon, reg, mon.links.Keys, reg.links.Keys, mon.nil, nil, itr
    {
      Passing(itr) && Ahead(itr, io, todo) && known + Keys(todo) == goal
    }

    ghost predicate Underway(itr: RbIterator, io: RbNode, todo: seq<RbNode>, goal: set<int>)
      reads this, mon, reg, mon.links.Keys, reg.links.Keys, mon.nil, nil, itr
    {
      forall u :: Asked(u) ==> Going(itr, io, todo, goal)
    }

    /** Between registering a key and fetching the next node. */
    ghost predicate Between(itr: RbIterator, todo: seq<RbNode>, goal: set<int>)
      reads this, mon, reg, mon.links.Keys, reg.links.Keys, mon.nil, nil, itr
    {
      forall u :: Asked(u) ==> Passing(itr) && Rest(itr.pos) == todo && known + Keys(todo) == goal
    }

    method RegisterAt(itr: RbIterator, io: RbNode, ghost todo: seq<RbNode>, ghost goal: set<int>) returns (ghost more: set<RbNode>)
      requires Underway(itr, io, todo, goal) && itr.ptr != nil
      modifies `added, `known, reg, reg.links.Keys
      ensures todo != [] && Between(itr, todo[1..], goal)
      ensures fresh(more) && reg.links.Keys <= old(reg.links).Keys + more && old(added) <= added
    {
      assert Asked(0);
      KeysOfTail(todo);
      more := RegisterHere(itr, io.key);
    }

    method FetchNext(itr: RbIterator, ghost todo: seq<RbNode>, ghost goal: set<int>) returns (next: RbNode)
      requires Between(itr, todo, goal)
      modifies mon.links.Keys`thread, itr
      ensures Underway(itr, next, todo, goal)
    {
      assert Asked(0);
      next := Fetch(itr, todo);
    }

    /** Registers the key at hand and fetches the next one; `more` are the marks that
        the registration tree gained. */
    method RegisterNext(itr: RbIterator, io: RbNode, ghost todo: seq<RbNode>, ghost goal: set<int>)
      returns (next: RbNode, ghost more: set<RbNode>)
      requires Underway(itr, io, todo, goal) && itr.ptr != nil
      modifies `added, `known, reg, reg.links.Keys, mon.links.Keys`thread, itr
      ensures todo != [] && Underway(itr, next, todo[1..], goal)
      ensures fresh(more) && reg.links.Keys <= old(reg.links).Keys + more && old(added) <= added
    {
      more := RegisterAt(itr, io, todo, goal);
      next := FetchNext(itr, todo[1..], goal);
    }

    method RegisterRest(itr: RbIterator, first: RbNode, ghost todo0: seq<RbNode>, ghost goal: set<int>)
      returns (ghost last: RbNode, ghost todo: seq<RbNode>)
      requires Underway(itr, first, todo0, goal)
      modifies `added, `known, reg, reg.links.Keys, mon.links.Keys`thread, itr
      ensures itr.ptr == nil && Underway(itr, last, todo, goal) && old(added) <= added
    {
      var io := first;
      todo := todo0;
      ghost var own, grown := reg.links.Keys, {};
      while itr.ptr != nil
        invariant Underway(itr, io, todo, goal)
        invariant fresh(grown) && reg.links.Keys <= own + grown && old(added) <= added
        decreases |todo|
      {
        ghost var more;
        io, more := RegisterNext(itr, io, todo, goal);
        grown := grown + more;
        todo := todo[1..];
      }
      last := io;
    }

    method Begin() returns (itr: RbIterator, io: RbNode, ghost todo: seq<RbNode>)
      requires Valid()
      modifies mon.links.Keys`thread
      ensures fresh(itr) && todo == InOrder(mon.shape) && Underway(itr, io, todo, known + Keys(todo))
    {
      itr := new RbIterator(mon);
      todo := InOrder(mon.shape);
      io := Fetch(itr, todo);
    }

    lemma AtTheEnd(itr: RbIterator, io: RbNode, todo: seq<RbNode>, goal: set<int>)
      requires Underway(itr, io, todo, goal) && itr.ptr == nil
      ensures Valid() && known == goal == Keys(InOrder(reg.shape))
    {
      assert Asked(0);
    }

    /** One pass over the monitored keys, in order. */
    method RegisterAll()
      requires Valid()
      modifies `added, `known, reg, reg.links.Keys, mon.links.Keys`thread
      ensures Valid() && mon.shape == old(mon.shape) && mon.links == old(mon.links)
      ensures known == old(known) + Keys(InOrder(mon.shape)) && known == Keys(InOrder(reg.shape))
      ensures old(added) <= added
    {
      ghost var todo, last, rest;
      var itr, io;
      itr, io, todo := Begin();
      ghost var goal := known + Keys(todo);
      last, rest := RegisterRest(itr, io, todo, goal);
      AtTheEnd(itr, last, rest, goal);
    }
  }

  lemma KeysOfTail(s: seq<RbNode>)
    requires s != []
    ensures Keys(s) == {s[0].key} + Keys(s[1..])
  {
    assert [] + [s[0]] + s[1..] == s;
    assert [] + s[1..] == s[1..];
    KeysOfMore([], s[0], s[1..]);
  }

  lemma Appended(s: seq<int>, k: int)
    requires Distinct(s) && k !in s
    ensures Distinct(s + [k]) && (set x | x in s + [k]) == (set x | x in s) + {k}
  {
  }

  lemma KeyIsKnown(tree: RbTree, key: int)
    requires tree.Valid() && Sorted(InOrder(tree.shape))
    ensures var r := Descend(Top, tree.shape, key).1;
            && (r.Node? ==> r.node != tree.nil)
            && (r.Node? <==> key in Keys(InOrder(tree.shape)))
  {
    SearchIsMembership(tree.shape, key);
    NeverSentinel(tree, key);
    var r := Descend(Top, tree.shape, key).1;
    if key in Keys(InOrder(tree.shape)) {
      var n :| n in InOrder(tree.shape) && n.key == key;
    }
  }

  lemma KeyIsAdded(t: Tree, n: RbNode)
    requires RedBlack(t) && Sorted(InOrder(t)) && Descend(Top, t, n.key).1.Nil?
    ensures Sorted(InOrder(Insert(t, n))) && Keys(InOrder(Insert(t, n))) == Keys(InOrder(t)) + {n.key}
  {
    InsertAtHole(t, n);
    var i := InsertOrder(t, n);
    var c := Descend(Top, t, n.key).0;
    KeysOfMore(Before(c), n, After(c));
  }

  /** A found node is never the sentinel. */
  lemma NeverSentinel(tree: RbTree, key: int)
    requires tree.Valid()
    ensures var r := Descend(Top, tree.shape, key).1; r.Node? ==> r.node != tree.nil
  {
    var (c, r) := Descend(Top, tree.shape, key);
    ZoomOut(tree.Mem(), c, r);
    if r.Node? { Neighbours(tree.Mem(), c, r); }
  }
}
