/** Search, insertion and removal on red-black tree values, and the laws that
    hold of them for every tree. */
module RbLaws {
  import opened Collections
  import opened Powers
  import opened RbSpec

  // ---------- search ----------

  /** The position where the search for `k` below `ctx` ends: a node with that
      key, or the empty place where it would hang. */
  function Descend(ctx: Ctx, t: Tree, k: int): (r: (Ctx, Tree))
    ensures Plug(r.0, r.1) == Plug(ctx, t)
    ensures r.1.Node? ==> r.1.node.key == k
    decreases t
  {
    if t.Nil? || k == t.node.key then (ctx, t)
    else if k < t.node.key then Descend(In(ctx, Left, t.node, t.color, t.right), t.left, k)
    else Descend(In(ctx, Right, t.node, t.color, t.left), t.right, k)
  }

  ghost predicate Below(s: seq<RbNode>, k: int) {
    forall i :: 0 <= i < |s| ==> s[i].key < k
  }

  ghost predicate Above(s: seq<RbNode>, k: int) {
    forall i :: 0 <= i < |s| ==> k < s[i].key
  }

  lemma SortedSplit(a: seq<RbNode>, x: RbNode, b: seq<RbNode>)
    requires Sorted(a + [x] + b)
    ensures Sorted(a) && Sorted(b) && Below(a, x.key) && Above(b, x.key)
  {
    var s := a + [x] + b;
    forall i | 0 <= i < |a| ensures a[i] == s[i] {}
    forall i | 0 <= i < |b| ensures b[i] == s[|a| + 1 + i] {}
    assert s[|a|] == x;
  }

  lemma SortedParts(a: seq<RbNode>, b: seq<RbNode>)
    requires Sorted(a + b)
    ensures Sorted(a) && Sorted(b)
  {
    var s := a + b;
    forall i | 0 <= i < |a| ensures a[i] == s[i] {}
    forall i | 0 <= i < |b| ensures b[i] == s[|a| + i] {}
  }

  lemma SortedJoin(a: seq<RbNode>, x: RbNode, b: seq<RbNode>)
    requires Sorted(a) && Sorted(b) && Below(a, x.key) && Above(b, x.key)
    ensures Sorted(a + [x] + b)
  {
  }

  lemma BelowJoin(a: seq<RbNode>, b: seq<RbNode>, x: RbNode, k: int)
    requires Below(a, k) && Below(b, x.key) && x.key < k
    ensures Below(a + b + [x], k)
  {
  }

  lemma AboveJoin(x: RbNode, b: seq<RbNode>, a: seq<RbNode>, k: int)
    requires Above(a, k) && Above(b, x.key) && k < x.key
    ensures Above([x] + b + a, k)
  {
  }

  lemma {:induction false} DescendBounds(ctx: Ctx, t: Tree, k: int)
    requires Sorted(InOrder(t)) && Below(Before(ctx), k) && Above(After(ctx), k)
    ensures var (c, r) := Descend(ctx, t, k); r.Nil? ==> Below(Before(c), k) && Above(After(c), k)
    decreases t
  {
    if t.Node? && k != t.node.key {
      SortedSplit(InOrder(t.left), t.node, InOrder(t.right));
      if k < t.node.key {
        AboveJoin(t.node, InOrder(t.right), After(ctx), k);
        DescendBounds(In(ctx, Left, t.node, t.color, t.right), t.left, k);
      } else {
        BelowJoin(Before(ctx), InOrder(t.left), t.node, k);
        DescendBounds(In(ctx, Right, t.node, t.color, t.left), t.right, k);
      }
    }
  }

  /** Search finds a node with the key exactly when the ordered tree has one. */
  lemma {:induction false} SearchIsMembership(t: Tree, k: int)
    requires Sorted(InOrder(t))
    ensures Descend(Top, t, k).1.Node? <==> exists n :: n in InOrder(t) && n.key == k
    ensures Descend(Top, t, k).1.Node? ==> Descend(Top, t, k).1.node in InOrder(t)
  {
    var (c, r) := Descend(Top, t, k);
    PlugInOrder(c, r);
    DescendBounds(Top, t, k);
    if r.Node? {
      assert InOrder(t) == Before(c) + (InOrder(r.left) + [r.node] + InOrder(r.right)) + After(c);
      assert r.node in InOrder(t);
    }
  }

  // ---------- insertion ----------

  function Insert(t: Tree, n: RbNode): Tree
    requires RedBlack(t)
  {
    var (ctx, hole) := Descend(Top, t, n.key);
    if hole.Node? then t
    else
      UnplugBalanced(ctx, Nil);
      AcceptsFacts(ctx, Black, 0);
      FixUp(ctx, Node(Nil, n, Red, Nil))
  }

  lemma {:induction false} InsertBalanced(t: Tree, n: RbNode)
    requires RedBlack(t)
    ensures RedBlack(Insert(t, n))
  {
    var (ctx, hole) := Descend(Top, t, n.key);
    if hole.Nil? {
      UnplugBalanced(ctx, Nil);
      AcceptsFacts(ctx, Black, 0);
      FixUpBalanced(ctx, Node(Nil, n, Red, Nil), 0);
    }
  }

  lemma {:induction false} InsertAtHole(t: Tree, n: RbNode)
    requires RedBlack(t) && Descend(Top, t, n.key).1.Nil?
    ensures var c := Descend(Top, t, n.key).0;
            InOrder(t) == Before(c) + After(c) && InOrder(Insert(t, n)) == Before(c) + [n] + After(c)
  {
    var ctx := Descend(Top, t, n.key).0;
    PlugInOrder(ctx, Nil);
    assert Before(ctx) + [] + After(ctx) == Before(ctx) + After(ctx);
    UnplugBalanced(ctx, Nil);
    AcceptsFacts(ctx, Black, 0);
    FixUpInOrder(ctx, Node(Nil, n, Red, Nil));
    assert InOrder(Node(Nil, n, Red, Nil)) == [n];
  }

  /** Insertion puts the node at its place in the order when the key is new and
      changes nothing otherwise. */
  lemma {:induction false} InsertOrder(t: Tree, n: RbNode) returns (i: nat)
    requires RedBlack(t) && Sorted(InOrder(t))
    ensures Sorted(InOrder(Insert(t, n)))
    ensures i <= |InOrder(t)|
    ensures if exists m :: m in InOrder(t) && m.key == n.key then Insert(t, n) == t
            else InOrder(Insert(t, n)) == InOrder(t)[..i] + [n] + InOrder(t)[i..]
  {
    SearchIsMembership(t, n.key);
    i := 0;
    if Descend(Top, t, n.key).1.Nil? {
      var ctx := Descend(Top, t, n.key).0;
      InsertAtHole(t, n);
      DescendBounds(Top, t, n.key);
      i := |Before(ctx)|;
      assert InOrder(t)[..i] == Before(ctx) && InOrder(t)[i..] == After(ctx);
      SortedParts(Before(ctx), After(ctx));
      SortedJoin(Before(ctx), n, After(ctx));
    }
  }

  lemma {:induction false} NodesInOrder(t: Tree)
    ensures Nodes(t) == Members(InOrder(t))
  {
    if t.Node? {
      NodesInOrder(t.left);
      NodesInOrder(t.right);
    }
  }

  lemma {:induction false} OneMoreNode(t: Tree, t': Tree, a: seq<RbNode>, x: RbNode, b: seq<RbNode>)
    requires InOrder(t) == a + b && InOrder(t') == a + [x] + b
    ensures Nodes(t') == Nodes(t) + {x}
  {
    NodesInOrder(t);
    NodesInOrder(t');
    assert Members(a + [x] + b) == Members(a + b) + {x};
  }

  /** Insertion of a new key adds exactly the new node. */
  lemma {:induction false} InsertNodes(t: Tree, n: RbNode)
    requires RedBlack(t)
    ensures Nodes(Insert(t, n)) == Nodes(t) + if Descend(Top, t, n.key).1.Nil? then {n} else {}
  {
    if Descend(Top, t, n.key).1.Nil? {
      InsertAtHole(t, n);
      var c := Descend(Top, t, n.key).0;
      OneMoreNode(t, Insert(t, n), Before(c), n, After(c));
    }
  }

  /** What the in-place insertion needs to know before and after the repair. */
  lemma {:induction false} InsertSummary(t: Tree, n: RbNode)
    requires RedBlack(t) && Descend(Top, t, n.key).1.Nil?
    ensures RootBlack(Descend(Top, t, n.key).0)
    ensures Insert(t, n) == FixUp(Descend(Top, t, n.key).0, Node(Nil, n, Red, Nil))
    ensures RedBlack(Insert(t, n)) && Nodes(Insert(t, n)) == Nodes(t) + {n}
  {
    var c := Descend(Top, t, n.key).0;
    UnplugBalanced(c, Nil);
    AcceptsFacts(c, Black, 0);
    InsertBalanced(t, n);
    InsertNodes(t, n);
  }

  // ---------- removal ----------

  function Leftmost(ctx: Ctx, t: Tree): (r: (Ctx, Tree))
    requires t.Node?
    ensures Plug(r.0, r.1) == Plug(ctx, t)
    ensures r.1.Node? && r.1.left.Nil?
    decreases t
  {
    if t.left.Nil? then (ctx, t)
    else Leftmost(In(ctx, Left, t.node, t.color, t.right), t.left)
  }

  function First(t: Tree): RbNode
    requires t.Node?
  {
    Leftmost(Top, t).1.node
  }

  lemma {:induction false} LeftmostFocus(ctx: Ctx, t: Tree, other: Ctx)
    requires t.Node?
    ensures Leftmost(ctx, t).1 == Leftmost(other, t).1
    decreases t
  {
    if t.left.Node? {
      LeftmostFocus(In(ctx, Left, t.node, t.color, t.right), t.left, In(other, Left, t.node, t.color, t.right));
    }
  }

  lemma {:induction false} LeftmostOrder(ctx: Ctx, t: Tree)
    requires t.Node?
    ensures Before(Leftmost(ctx, t).0) == Before(ctx)
    ensures InOrder(t) == [First(t)] + InOrder(t)[1..]
    ensures InOrder(Leftmost(ctx, t).1.right) + After(Leftmost(ctx, t).0) == InOrder(t)[1..] + After(ctx)
    decreases t
  {
    if t.left.Nil? {
      assert InOrder(t) == [t.node] + InOrder(t.right);
    } else {
      var down := In(ctx, Left, t.node, t.color, t.right);
      LeftmostOrder(down, t.left);
      LeftmostFocus(Top, t, ctx);
      LeftmostFocus(Top, t.left, down);
      DropFirst(InOrder(t.left), t.node, InOrder(t.right), After(ctx));
    }
  }

  lemma DropFirst(l: seq<RbNode>, x: RbNode, r: seq<RbNode>, a: seq<RbNode>)
    requires l != []
    ensures l + [x] + r == [l[0]] + (l + [x] + r)[1..]
    ensures l[1..] + ([x] + r + a) == (l + [x] + r)[1..] + a
  {
    assert (l + [x] + r)[1..] == l[1..] + [x] + r;
  }

  /** Which node trades places with a node that has two children.  The code uses
      the leftmost node of the removed node's own subtree; its in-order successor
      is the leftmost node of the right subtree. */
  datatype Partner = OwnLeftmost | Successor

  function Side(p: Partner): Dir {
    if p == OwnLeftmost then Left else Right
  }

  /** The position of `t.node` after the trade: its partner has taken over its
      place and colour, and the other way round. */
  function Trade(p: Partner, ctx: Ctx, t: Tree): (r: (Ctx, Tree))
    requires t.Node? && t.left.Node? && t.right.Node?
    ensures r.1.Node? && r.1.left.Nil?
  {
    var d := Side(p);
    var sub := Child(t, d);
    var (c, m) := Leftmost(In(ctx, d, First(sub), t.color, Child(t, Flip(d))), sub);
    (c, m.(node := t.node))
  }

  /** Taking out a node that has at most one child. */
  function Unlink(ctx: Ctx, t: Tree): Tree
    requires t.Node? && (t.left.Nil? || t.right.Nil?) && RedBlack(Plug(ctx, t))
  {
    UnplugBalanced(ctx, t);
    var c := if t.color == Black then Rm1(ctx, BlackHeight(t) - 1) else ctx;
    Plug(c, Filler(c, t))
  }

  /** What comes to the place of a node with at most one child. */
  function Filler(c: Ctx, t: Tree): Tree
    requires t.Node?
  {
    var child := if t.left.Node? then t.left else t.right;
    if c.Top? then Paint(child, Black) else child
  }

  lemma {:induction false} TradeBalanced(p: Partner, ctx: Ctx, t: Tree)
    requires t.Node? && t.left.Node? && t.right.Node? && RedBlack(Plug(ctx, t))
    ensures var r := Trade(p, ctx, t); RedBlack(Plug(r.0, r.1))
  {
    UnplugBalanced(ctx, t);
    var d := Side(p);
    var frame := In(ctx, d, First(Child(t, d)), t.color, Child(t, Flip(d)));
    var h := BlackHeight(t) - Lower(t.color);
    assert Accepts(frame, ColorOf(Child(t, d)), h);
    PlugBalanced(frame, Child(t, d), h);
    var (c, m) := Leftmost(frame, Child(t, d));
    UnplugBalanced(c, m);
    PlugBalanced(c, m.(node := t.node), BlackHeight(m));
  }

  function Remove(p: Partner, ctx: Ctx, t: Tree): Tree
    requires t.Node? && RedBlack(Plug(ctx, t))
  {
    if t.left.Node? && t.right.Node? then
      TradeBalanced(p, ctx, t);
      Unlink(Trade(p, ctx, t).0, Trade(p, ctx, t).1)
    else Unlink(ctx, t)
  }

  lemma {:induction false} UnlinkBalanced(ctx: Ctx, t: Tree)
    requires t.Node? && (t.left.Nil? || t.right.Nil?) && RedBlack(Plug(ctx, t))
    ensures RedBlack(Unlink(ctx, t))
  {
    UnplugBalanced(ctx, t);
    var child := if t.left.Node? then t.left else t.right;
    var h := BlackHeight(t) - Lower(t.color);
    assert Balanced(child, h);
    if t.color == Black {
      Rm1Balanced(ctx, h);
      var c := Rm1(ctx, h);
      if c.Top? {
        BalancedHeight(Paint(child, Black), if ColorOf(child) == Red then h + 1 else h);
      } else {
        AcceptsFacts(c, Red, h);
        PlugBalanced(c, child, h);
      }
    } else {
      AcceptsFacts(ctx, Red, h);
      PlugBalanced(ctx, child, h);
    }
  }

  /** Removal keeps the tree red-black, whichever partner is used. */
  lemma {:induction false} RemoveBalanced(p: Partner, ctx: Ctx, t: Tree)
    requires t.Node? && RedBlack(Plug(ctx, t))
    ensures RedBlack(Remove(p, ctx, t))
  {
    if t.left.Node? && t.right.Node? {
      TradeBalanced(p, ctx, t);
      UnlinkBalanced(Trade(p, ctx, t).0, Trade(p, ctx, t).1);
    } else {
      UnlinkBalanced(ctx, t);
    }
  }

  lemma {:induction false} UnlinkOrder(ctx: Ctx, t: Tree)
    requires t.Node? && (t.left.Nil? || t.right.Nil?) && RedBlack(Plug(ctx, t))
    ensures InOrder(Unlink(ctx, t)) == (Before(ctx) + InOrder(t.left)) + (InOrder(t.right) + After(ctx))
  {
    UnplugBalanced(ctx, t);
    var child := if t.left.Node? then t.left else t.right;
    var c := if t.color == Black then Rm1(ctx, BlackHeight(t) - 1) else ctx;
    if t.color == Black { Rm1Order(ctx, BlackHeight(t) - 1); }
    PaintInOrder(child, Black);
    PlugInOrder(c, Filler(c, t));
    Regroup(Before(ctx), InOrder(t.left), InOrder(t.right), After(ctx));
    assert InOrder(child) == InOrder(t.left) + InOrder(t.right);
  }

  lemma Regroup(a: seq<RbNode>, b: seq<RbNode>, c: seq<RbNode>, d: seq<RbNode>)
    ensures a + (b + c) + d == (a + b) + (c + d)
  {
  }

  lemma RegroupMoved(b: seq<RbNode>, l: seq<RbNode>, f: RbNode, r: seq<RbNode>, a: seq<RbNode>)
    ensures (b + []) + (l + ([f] + r + a)) == (b + (l + [f])) + (r + a)
  {
  }

  lemma {:induction false} TradeOrder(p: Partner, ctx: Ctx, t: Tree)
    requires t.Node? && t.left.Node? && t.right.Node?
    ensures |InOrder(t.left)| > 0 && |InOrder(t.right)| > 0
    ensures var (c, m) := Trade(p, ctx, t);
            if p == OwnLeftmost then
              && Before(c) == Before(ctx)
              && InOrder(m.right) + After(c) ==
                   InOrder(t.left)[1..] + ([InOrder(t.left)[0]] + InOrder(t.right) + After(ctx))
            else
              && Before(c) == Before(ctx) + InOrder(t.left) + [InOrder(t.right)[0]]
              && InOrder(m.right) + After(c) == InOrder(t.right)[1..] + After(ctx)
  {
    var d := Side(p);
    var sub := Child(t, d);
    LeftmostOrder(In(ctx, d, First(sub), t.color, Child(t, Flip(d))), sub);
    assert First(sub) == InOrder(sub)[0];
  }

  /** The sequence before the removed node and the sequence after it. */
  function Ahead(ctx: Ctx, t: Tree): seq<RbNode>
    requires t.Node?
  {
    Before(ctx) + InOrder(t.left)
  }

  function Behind(ctx: Ctx, t: Tree): seq<RbNode>
    requires t.Node?
  {
    InOrder(t.right) + After(ctx)
  }

  lemma {:induction false} PlugAround(ctx: Ctx, t: Tree)
    requires t.Node?
    ensures InOrder(Plug(ctx, t)) == Ahead(ctx, t) + [t.node] + Behind(ctx, t)
  {
    PlugInOrder(ctx, t);
    assert Before(ctx) + (InOrder(t.left) + [t.node] + InOrder(t.right)) + After(ctx)
        == Ahead(ctx, t) + [t.node] + Behind(ctx, t);
  }

  lemma NothingBetween(b: seq<RbNode>, r: seq<RbNode>, a: seq<RbNode>)
    requires r != []
    ensures (b + []) + (r[1..] + a) == b + (r[1..] + a) && b + [r[0]] + (r[1..] + a) == b + (r + a)
  {
  }

  /** A node that lacks a child, or that trades with its successor, simply
      leaves the sequence. */
  lemma {:induction false} RemoveOrder(p: Partner, ctx: Ctx, t: Tree)
    requires t.Node? && RedBlack(Plug(ctx, t))
    requires p == Successor || t.left.Nil? || t.right.Nil?
    ensures InOrder(Plug(ctx, t)) == Ahead(ctx, t) + [t.node] + Behind(ctx, t)
    ensures InOrder(Remove(p, ctx, t)) == Ahead(ctx, t) + Behind(ctx, t)
  {
    PlugAround(ctx, t);
    if t.left.Node? && t.right.Node? {
      TradeBalanced(p, ctx, t);
      TradeOrder(p, ctx, t);
      var (c, m) := Trade(p, ctx, t);
      UnlinkOrder(c, m);
      NothingBetween(Before(c), InOrder(t.right), After(ctx));
    } else {
      UnlinkOrder(ctx, t);
    }
  }

  /** With two children the code moves the first node of the left subtree to the
      place of the removed one: `A ++ [f] ++ L ++ [ref] ++ B` becomes
      `A ++ L ++ [f] ++ B`. */
  lemma {:induction false} RemoveMovesFirst(ctx: Ctx, t: Tree)
    requires t.Node? && RedBlack(Plug(ctx, t)) && t.left.Node? && t.right.Node?
    ensures |InOrder(t.left)| > 0
    ensures InOrder(Plug(ctx, t)) == Ahead(ctx, t) + [t.node] + Behind(ctx, t)
    ensures InOrder(Remove(OwnLeftmost, ctx, t)) ==
            (Before(ctx) + (InOrder(t.left)[1..] + [InOrder(t.left)[0]])) + Behind(ctx, t)
  {
    PlugAround(ctx, t);
    TradeBalanced(OwnLeftmost, ctx, t);
    TradeOrder(OwnLeftmost, ctx, t);
    var (c, m) := Trade(OwnLeftmost, ctx, t);
    UnlinkOrder(c, m);
    var (b, l, r, a) := (Before(ctx), InOrder(t.left), InOrder(t.right), After(ctx));
    RegroupMoved(b, l[1..], l[0], r, a);
  }

  /** The code keeps an ordered tree ordered exactly when the removed node lacks
      a child or its left child is a leaf. */
  lemma {:induction false} RemoveKeepsOrderIff(ctx: Ctx, t: Tree)
    requires t.Node? && RedBlack(Plug(ctx, t)) && Sorted(InOrder(Plug(ctx, t)))
    ensures Sorted(InOrder(Remove(OwnLeftmost, ctx, t))) <==>
            t.left.Nil? || t.right.Nil? || (t.left.left.Nil? && t.left.right.Nil?)
  {
    if t.left.Nil? || t.right.Nil? {
      RemoveOrder(OwnLeftmost, ctx, t);
      SortedWithout(Ahead(ctx, t), t.node, Behind(ctx, t));
    } else {
      RemoveMovesFirst(ctx, t);
      SortedWithout(Ahead(ctx, t), t.node, Behind(ctx, t));
      var (b, l, e) := (Before(ctx), InOrder(t.left), Behind(ctx, t));
      LeafLength(t.left);
      if |l| == 1 {
        assert l[1..] + [l[0]] == l;
      } else {
        var s, was := (b + (l[1..] + [l[0]])) + e, (b + l) + [t.node] + e;
        assert s[|b|] == l[1] && s[|b| + |l| - 1] == l[0];
        assert was[|b|] == l[0] && was[|b| + 1] == l[1];
      }
    }
  }

  /** With the in-order successor as partner the order would always survive. */
  lemma {:induction false} SuccessorKeepsOrder(ctx: Ctx, t: Tree)
    requires t.Node? && RedBlack(Plug(ctx, t)) && Sorted(InOrder(Plug(ctx, t)))
    ensures Sorted(InOrder(Remove(Successor, ctx, t)))
  {
    RemoveOrder(Successor, ctx, t);
    SortedWithout(Ahead(ctx, t), t.node, Behind(ctx, t));
  }

  lemma SortedWithout(a: seq<RbNode>, x: RbNode, b: seq<RbNode>)
    requires Sorted(a + [x] + b)
    ensures Sorted(a + b)
  {
    var s := a + [x] + b;
    forall i, j | 0 <= i < j < |a + b| ensures (a + b)[i].key < (a + b)[j].key {
      var i', j' := if i < |a| then i else i + 1, if j < |a| then j else j + 1;
      assert (a + b)[i] == s[i'] && (a + b)[j] == s[j'];
    }
  }

  lemma LeafLength(t: Tree)
    requires t.Node?
    ensures |InOrder(t)| == 1 <==> t.left.Nil? && t.right.Nil?
  {
    assert t.left.Node? ==> |InOrder(t.left)| > 0;
    assert t.right.Node? ==> |InOrder(t.right)| > 0;
  }

  /** A concrete failure: removing 3 from {1, 2, 3, 4} leaves 2 before 1. */
  lemma {:induction false} RemoveMayDisorder(a: RbNode, b: RbNode, c: RbNode, d: RbNode)
    requires a.key == 1 && b.key == 2 && c.key == 3 && d.key == 4
    ensures var t := Node(Node(Node(Nil, a, Red, Nil), b, Black, Nil), c, Black, Node(Nil, d, Black, Nil));
            && RedBlack(t) && Sorted(InOrder(t))
            && InOrder(Remove(OwnLeftmost, Top, t)) == [b, a, d]
  {
    var l := Node(Node(Nil, a, Red, Nil), b, Black, Nil);
    var r := Node(Nil, d, Black, Nil);
    var t := Node(l, c, Black, r);
    assert Balanced(Nil, 0);
    assert Balanced(Node(Nil, a, Red, Nil), 0);
    assert Balanced(l, 1);
    assert Balanced(r, 1);
    assert Balanced(t, 2);
    BalancedHeight(t, 2);
    assert InOrder(Node(Nil, a, Red, Nil)) == [a];
    assert InOrder(l) == [a, b] && InOrder(r) == [d];
    RemoveMovesFirst(Top, t);
    assert InOrder(t) == [a, b, c, d];
  }

  /** The position of a node of the tree. */
  ghost function Locate(ctx: Ctx, t: Tree, x: RbNode): (r: (Ctx, Tree))
    requires x in Nodes(t)
    ensures r.1.Node? && r.1.node == x && Plug(r.0, r.1) == Plug(ctx, t)
    decreases t
  {
    if t.node == x then (ctx, t)
    else if x in Nodes(t.left) then Locate(In(ctx, Left, t.node, t.color, t.right), t.left, x)
    else Locate(In(ctx, Right, t.node, t.color, t.left), t.right, x)
  }

  /** Removal drops no other node. */
  lemma {:induction false} RemoveNodes(p: Partner, ctx: Ctx, t: Tree)
    requires t.Node? && RedBlack(Plug(ctx, t))
    ensures Nodes(Remove(p, ctx, t)) + {t.node} == Nodes(Plug(ctx, t))
  {
    var after := Remove(p, ctx, t);
    if p == OwnLeftmost && t.left.Node? && t.right.Node? {
      RemoveMovesFirst(ctx, t);
      NodesInOrder(after);
      NodesInOrder(Plug(ctx, t));
      var l := InOrder(t.left);
      assert l == [l[0]] + l[1..];
      assert Members(Before(ctx) + (l[1..] + [l[0]]) + Behind(ctx, t)) + {t.node}
          == Members(Before(ctx) + l + [t.node] + Behind(ctx, t));
    } else {
      RemoveOrder(p, ctx, t);
      OneMoreNode(after, Plug(ctx, t), Ahead(ctx, t), t.node, Behind(ctx, t));
    }
  }

  /** `t` with another node in the place of its first one. */
  function RenameFirst(t: Tree, x: RbNode): Tree
    requires t.Node?
  {
    if t.left.Nil? then t.(node := x) else t.(left := RenameFirst(t.left, x))
  }

  lemma {:induction false} RenamedLeftmost(ctx: Ctx, t: Tree, x: RbNode)
    requires t.Node?
    ensures var (c, m) := Leftmost(ctx, t);
            && Plug(c, m.(node := x)) == Plug(ctx, RenameFirst(t, x))
            && Leftmost(ctx, RenameFirst(t, x)) == (c, m.(node := x))
    decreases t
  {
    if t.left.Node? {
      RenamedLeftmost(In(ctx, Left, t.node, t.color, t.right), t.left, x);
    }
  }

  /** The three whole trees that the trade through a spare node passes: with the
      spare node in the partner's place, with the partner in the removed node's
      place, and with the removed node in the spare node's place. */
  lemma {:induction false} TradePositions(ctx: Ctx, t: Tree, spare: RbNode)
    requires t.Node? && t.left.Node? && t.right.Node?
    ensures var (c, m) := Leftmost(In(ctx, Left, t.node, t.color, t.right), t.left);
            var (c', m') := Trade(OwnLeftmost, ctx, t);
            && m.node == First(t.left) && m' == m.(node := t.node)
            && Plug(c, m) == Plug(ctx, t)
            && Plug(c, m.(node := spare)) == Plug(ctx, t.(left := RenameFirst(t.left, spare)))
            && Plug(c', m.(node := spare)) == Plug(ctx, t.(left := RenameFirst(t.left, spare), node := m.node))
  {
    var frame, frame' := In(ctx, Left, t.node, t.color, t.right), In(ctx, Left, First(t.left), t.color, t.right);
    LeftmostFocus(Top, t.left, frame);
    LeftmostFocus(Top, t.left, frame');
    RenamedLeftmost(frame, t.left, spare);
    RenamedLeftmost(frame', t.left, spare);
  }

  // ---------- depth ----------

  function Height(t: Tree): nat {
    if t.Nil? then 0
    else 1 + if Height(t.left) > Height(t.right) then Height(t.left) else Height(t.right)
  }

  lemma {:induction false} BlackHeightCounts(t: Tree, h: nat)
    requires Balanced(t, h)
    ensures Pow2(h) <= |InOrder(t)| + 1
    ensures Height(t) <= 2 * h + (if ColorOf(t) == Red then 1 else 0)
  {
    if t.Node? {
      var k := h - Lower(t.color);
      BalancedHeight(t.left, k);
      BlackHeightCounts(t.left, k);
      BlackHeightCounts(t.right, k);
    }
  }

  /** No search path is longer than twice the binary logarithm of the size. */
  lemma {:induction false} HeightIsLogarithmic(t: Tree)
    requires RedBlack(t)
    ensures Pow2((Height(t) + 1) / 2) <= |InOrder(t)| + 1
  {
    BlackHeightCounts(t, BlackHeight(t));
    Pow2Monotone((Height(t) + 1) / 2, BlackHeight(t));
  }
}
