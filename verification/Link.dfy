/** The circular doubly linked lists of include/liteco/lc_link.h: the macros
    against the sequence of nodes that stand after the sentinel. */
module LinkedLists {
  import opened Collections

  /** A node of a list of `T`; that of a sentinel is not used. */
  class LinkNode<T> {
    var next: LinkNode<T>
    var prev: LinkNode<T>
    const item: T

    /** A node alone is an empty list. */
    constructor (item: T)
      ensures IsList(this, []) && this.item == item
    {
      next, prev := this, this;
      this.item := item;
    }

    method Init()
      modifies this
      ensures IsList(this, [])
    {
      next, prev := this, this;
    }

    predicate IsEmpty()
      reads this
    {
      next == this
    }
  }

  /** What a list holds. */
  function Items<T>(c: seq<LinkNode<T>>): (s: seq<T>)
    ensures |s| == |c| && forall i :: 0 <= i < |c| ==> s[i] == c[i].item
  {
    seq(|c|, i requires 0 <= i < |c| => c[i].item)
  }

  ghost function Nodes<T>(l: LinkNode<T>, c: seq<LinkNode<T>>): set<LinkNode<T>> {
    {l} + Members(c)
  }

  /** Following `next` from the sentinel passes the nodes `c` and comes back, and
      `prev` leads the other way. */
  ghost predicate IsList<T>(l: LinkNode<T>, c: seq<LinkNode<T>>)
    reads Nodes(l, c)
  {
    var ring := [l] + c;
    && l !in c && (forall i, j :: 0 <= i < j < |c| ==> c[i] != c[j])
    && forall i :: 0 <= i < |ring| ==> Joint(ring, i)
  }

  ghost predicate Joint<T>(ring: seq<LinkNode<T>>, i: nat)
    requires i < |ring|
    reads ring
  {
    ring[i].next == ring[if i + 1 < |ring| then i + 1 else 0] && ring[i].prev == ring[if i > 0 then i - 1 else |ring| - 1]
  }

  /** What the reads of a list tell. */
  lemma Ends<T>(l: LinkNode<T>, c: seq<LinkNode<T>>)
    requires IsList(l, c)
    ensures l.IsEmpty() <==> c == []
    ensures c != [] ==> l.next == c[0] && l.prev == c[|c| - 1]
  {
    assert Joint([l] + c, 0);
  }

  /** Puts `n` first. */
  method InsertAfter<T>(l: LinkNode<T>, n: LinkNode<T>, ghost c: seq<LinkNode<T>>)
    requires IsList(l, c) && n != l && n !in c
    modifies Nodes(l, c), n
    ensures IsList(l, [n] + c)
  {
    ghost var ring, ring' := [l] + c, [l] + ([n] + c);
    assert Joint(ring, 0);
    n.next := l.next;
    n.prev := l;
    l.next.prev := n;
    l.next := n;
    forall i | 0 <= i < |ring'| ensures Joint(ring', i) {
      if i >= 2 { assert ring'[i] == ring[i - 1] && old(Joint(ring, i - 1)); }
    }
  }

  /** Puts `n` last. */
  method InsertBefore<T>(l: LinkNode<T>, n: LinkNode<T>, ghost c: seq<LinkNode<T>>)
    requires IsList(l, c) && n != l && n !in c
    modifies Nodes(l, c), n
    ensures IsList(l, c + [n])
  {
    ghost var ring, ring' := [l] + c, [l] + (c + [n]);
    assert Joint(ring, 0);
    n.prev := l.prev;
    n.next := l;
    l.prev.next := n;
    l.prev := n;
    forall i | 0 <= i < |ring'| ensures Joint(ring', i) {
      if i < |ring| { assert ring'[i] == ring[i] && old(Joint(ring, i)); }
    }
  }

  /** Unlinks the node at place `k`; it keeps its own links. */
  method Remove<T>(p: LinkNode<T>, ghost l: LinkNode<T>, ghost c: seq<LinkNode<T>>, ghost k: nat)
    requires IsList(l, c) && k < |c| && c[k] == p
    modifies Nodes(l, c)
    ensures IsList(l, c[..k] + c[k + 1..])
    ensures p.next == old(p.next) && p.prev == old(p.prev)
  {
    ghost var ring, ring' := [l] + c, [l] + (c[..k] + c[k + 1..]);
    RingWithout(l, c, k);
    assert Joint(ring, k + 1);
    p.next.prev := p.prev;
    p.prev.next := p.next;
    forall i | 0 <= i < |ring'| ensures Joint(ring', i) {
      assert old(Joint(ring, if i <= k then i else i + 1));
    }
  }

  lemma RingWithout<T>(l: LinkNode<T>, c: seq<LinkNode<T>>, k: nat)
    requires k < |c|
    ensures var ring, ring' := [l] + c, [l] + (c[..k] + c[k + 1..]);
      |ring'| + 1 == |ring| && forall i :: 0 <= i < |ring'| ==> ring'[i] == ring[if i <= k then i else i + 1]
  {
  }

  lemma WithoutOne<T>(c: seq<LinkNode<T>>, i: nat)
    requires i < |c|
    ensures Items(c[..i] + c[i + 1..]) == Items(c)[..i] + Items(c)[i + 1..]
  {
  }

  /** A sentinel with the nodes that stand after it. */
  class List<T> {
    const head: LinkNode<T>
    ghost var nodes: seq<LinkNode<T>>
    ghost var items: seq<T>
    ghost var Repr: set<object>

    ghost predicate Valid()
      reads this, Repr
      ensures Valid() ==> this in Repr
    {
      this in Repr && Nodes(head, nodes) <= Repr && IsList(head, nodes) && items == Items(nodes)
    }

    constructor (item: T)
      ensures Valid() && fresh(Repr) && items == []
    {
      head := new LinkNode(item);
      nodes, items := [], [];
      new;
      Repr := {this, head};
    }

    predicate IsEmpty()
      requires Valid()
      reads this, Repr
      ensures IsEmpty() <==> items == []
    {
      Ends(head, nodes);
      head.IsEmpty()
    }

    /** `liteco_link_insert_after` the sentinel. */
    method Push(item: T)
      requires Valid()
      modifies Repr
      ensures Valid() && fresh(Repr - old(Repr)) && items == [item] + old(items)
    {
      var node := new LinkNode(item);
      InsertAfter(head, node, nodes);
      nodes := [node] + nodes;
      items := [item] + items;
      Repr := Repr + {node};
    }

    /** `liteco_link_insert_before` the sentinel. */
    method Append(item: T)
      requires Valid()
      modifies Repr
      ensures Valid() && fresh(Repr - old(Repr)) && items == old(items) + [item]
    {
      var node := new LinkNode(item);
      InsertBefore(head, node, nodes);
      nodes := nodes + [node];
      items := items + [item];
      Repr := Repr + {node};
    }

    /** `liteco_link_remove` of the node at place `i`. */
    method Unlink(node: LinkNode<T>, ghost i: nat)
      requires Valid() && i < |nodes| && nodes[i] == node
      modifies Repr
      ensures Valid() && Repr == old(Repr) && nodes == old(nodes)[..i] + old(nodes)[i + 1..]
      ensures |old(items)| == |old(nodes)| && items == old(items)[..i] + old(items)[i + 1..]
    {
      WithoutOne(nodes, i);
      Remove(node, head, nodes, i);
      nodes := nodes[..i] + nodes[i + 1..];
      items := items[..i] + items[i + 1..];
    }

    /** Unlinks the first node and gives what it holds. */
    method TakeFirst() returns (item: T)
      requires Valid() && items != []
      modifies Repr
      ensures Valid() && Repr == old(Repr) && old(items) == [item] + items
    {
      Ends(head, nodes);
      item := head.next.item;
      Unlink(head.next, 0);
    }

    /** Unlinks the node at place `i` in the middle of a walk, which goes on from the
        node before it. */
    method StepBack(node: LinkNode<T>, ghost i: nat) returns (prev: LinkNode<T>)
      requires Valid() && i < |nodes| && nodes[i] == node
      modifies Repr
      ensures Valid() && Repr == old(Repr) && nodes == old(nodes)[..i] + old(nodes)[i + 1..]
      ensures |old(items)| == |old(nodes)| && items == old(items)[..i] + old(items)[i + 1..] && prev == ([head] + nodes)[i]
    {
      assert Joint([head] + nodes, i + 1);
      prev := node.prev;
      Unlink(node, i);
    }

    /** The node after place `i`, where place 0 is the sentinel's. */
    lemma After(i: nat)
      requires Valid() && i <= |nodes|
      ensures ([head] + nodes)[i].next == if i < |nodes| then nodes[i] else head
      ensures ([head] + nodes)[i].next == head <==> i == |nodes|
      ensures |items| == |nodes| && (i < |nodes| ==> nodes[i].item == items[i])
    {
      assert Joint([head] + nodes, i);
    }
  }

  /** `liteco_link_foreach` passes exactly the list's nodes, in order. */
  method Foreach<T>(l: LinkNode<T>, ghost c: seq<LinkNode<T>>) returns (out: seq<LinkNode<T>>)
    requires IsList(l, c)
    ensures out == c
  {
    out := [];
    Ends(l, c);
    var e := l.next;
    while e != l
      invariant |out| <= |c| && out == c[..|out|]
      invariant e == if |out| < |c| then c[|out|] else l
      invariant e == l <==> |out| == |c|
      decreases |c| - |out|
    {
      assert e == c[|out|];
      assert Joint([l] + c, |out| + 1);
      out := out + [e];
      e := e.next;
    }
    assert c[..|c|] == c;
  }

  /** As a stack: pushing and popping undo each other. */
  method PushPop<T>(s: LinkNode<T>, p: LinkNode<T>, ghost c: seq<LinkNode<T>>) returns (top: LinkNode<T>)
    requires IsList(s, c) && p != s && p !in c
    modifies Nodes(s, c), p
    ensures IsList(s, c) && top == p
  {
    InsertAfter(s, p, c);
    Ends(s, [p] + c);
    top := s.next;
    Remove(s.next, s, [p] + c, 0);
    assert ([p] + c)[..0] + ([p] + c)[1..] == c;
  }
}
