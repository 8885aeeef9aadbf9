/** The intrusive heap of src/lc_heap.c, updated in place. */
module Heaps {
  import opened Collections
  import opened Powers
  import opened HeapShape

  const UINT32 := 0x1_0000_0000

  /** The distance of the last node from the first of its level, in the source's
      unsigned arithmetic. */
  function Offset(cnt: nat, h: nat): int
    requires h >= 1
  {
    (Pow2(h - 1) - 1 - (Pow2(h) - cnt - 1) % UINT32) % UINT32
  }

  /** Whether bit `e` of `x` is set. */
  function Bit(x: nat, e: nat): bool {
    Shift(x, e) % 2 != 0
  }

  lemma {:induction false} OffsetIs(cnt: nat, h: nat)
    requires h >= 1 && Pow2(h - 1) <= cnt < Pow2(h) && cnt < 0x4000_0000
    ensures Offset(cnt, h) == cnt - Pow2(h - 1)
  {
  }

  /** Following one more bit of the offset reaches one more bit of the position. */
  lemma {:induction false} BitStep(cnt: nat, h: nat, i: nat)
    requires 1 <= i < h && Pow2(h - 1) <= cnt < Pow2(h)
    ensures 1 <= Shift(cnt, h - i) <= cnt / 2
    ensures Shift(cnt, h - 1 - i) == 2 * Shift(cnt, h - i) + if Bit(cnt - Pow2(h - 1), h - 1 - i) then 1 else 0
  {
    ShiftHalves(cnt, h - 1 - i);
    SameBit(cnt - Pow2(h - 1), h - 1 - i, h - 1);
    ShiftRange(cnt, h - i, h);
  }

  /** The position reached after the first `i - 1` bits of the offset. */
  function Walk(off: nat, h: nat, i: nat): nat
    requires 1 <= i <= h
  {
    if i == 1 then 1 else 2 * Walk(off, h, i - 1) + if Bit(off, h - i) then 1 else 0
  }

  /** The bits lead, level by level, to position `n`; before the last step the
      position belongs to a node that is there. */
  lemma {:induction false} WalkLeads(n: nat, h: nat, i: nat)
    requires 1 <= i <= h && Pow2(h - 1) <= n < Pow2(h)
    ensures Walk(n - Pow2(h - 1), h, i) == Shift(n, h - i)
    ensures i < h ==> 1 <= Walk(n - Pow2(h - 1), h, i) <= n / 2
    ensures i == h ==> Walk(n - Pow2(h - 1), h, i) == n
  {
    if i == 1 {
      ShiftTop(n, h);
    } else {
      WalkLeads(n, h, i - 1);
      BitStep(n, h, i - 1);
    }
    if i < h { BitStep(n, h, i); }
  }

  class Heap {
    var root: HeapNode?
    var cnt: nat
    /** The nodes in level order. */
    ghost var at: seq<HeapNode>
    ghost var links: LinkMap
    ghost var due: Deadlines

    /** The ghost maps show the links, and the deadlines, of the heap's nodes. */
    ghost predicate Mirrored()
      reads this, links.Keys
    {
      forall n :: n in links ==> links[n] == NodeLinks(n.parent, n.left, n.right)
    }

    ghost predicate Dated()
      reads `links, `due, links.Keys`timeout
    {
      forall n :: n in links ==> n in due && due[n] == n.timeout
    }

    /** A complete tree of `cnt` nodes. */
    ghost predicate Shaped()
      reads this, links.Keys
    {
      Mirrored() && Joined(links, at) && cnt == |at| && root == At(at, 1) && links.Keys == Members(at)
    }

    ghost predicate Valid()
      reads this, links.Keys
    {
      Shaped() && Dated() && Ordered(due, at)
    }

    constructor ()
      ensures Valid() && at == []
    {
      root, cnt, at, links, due := null, 0, [], map[], map[];
    }

    method SetLinks(n: HeapNode, l: NodeLinks)
      requires Mirrored() && n in links
      modifies `links, n`parent, n`left, n`right
      ensures Mirrored() && links.Keys == old(links).Keys && links == old(links)[n := l]
    {
      n.parent, n.left, n.right := l.parent, l.left, l.right;
      links := links[n := l];
    }

    method SetParent(n: HeapNode, x: HeapNode?)
      requires Mirrored() && n in links
      modifies `links, n`parent
      ensures Mirrored() && links.Keys == old(links).Keys && links == HeapShape.SetParent(old(links), n, x)
    {
      n.parent := x;
      links := links[n := links[n].(parent := x)];
    }

    method SetLeft(n: HeapNode, x: HeapNode?)
      requires Mirrored() && n in links
      modifies `links, n`left
      ensures Mirrored() && links.Keys == old(links).Keys && links == old(links)[n := old(links)[n].(left := x)]
    {
      n.left := x;
      links := links[n := links[n].(left := x)];
    }

    method SetRight(n: HeapNode, x: HeapNode?)
      requires Mirrored() && n in links
      modifies `links, n`right
      ensures Mirrored() && links.Keys == old(links).Keys && links == old(links)[n := old(links)[n].(right := x)]
    {
      n.right := x;
      links := links[n := links[n].(right := x)];
    }

    method Adopt(n: HeapNode?, x: HeapNode?)
      requires Mirrored() && (n == null || n in links)
      modifies `links, links.Keys`parent
      ensures Mirrored() && links.Keys == old(links).Keys && links == HeapShape.Adopt(old(links), n, x)
    {
      if n != null {
        SetParent(n, x);
      }
    }

    /** Whoever led to `was`, its parent or the heap itself, leads to `now`. */
    method Redirect(parent: HeapNode?, was: HeapNode?, now: HeapNode?)
      requires Mirrored() && (parent == null || parent in links)
      modifies `root, `links, links.Keys`left, links.Keys`right
      ensures Mirrored() && links.Keys == old(links).Keys && links == HeapShape.Redirect(old(links), parent, was, now)
      ensures root == if parent == null then now else old(root)
    {
      if parent == null {
        root := now;
      } else if parent.left == was {
        SetLeft(parent, now);
      } else {
        SetRight(parent, now);
      }
    }

    method TradeFields(p: HeapNode, c: HeapNode)
      requires Mirrored() && p in links && c in links && p != c
      modifies `links, links.Keys`parent, links.Keys`left, links.Keys`right
      ensures Mirrored() && links.Keys == old(links).Keys
      ensures links == HeapShape.SetParent(old(links)[p := old(links)[c]][c := old(links)[p]], p, c)
      ensures links[p] == old(links)[c].(parent := c) && links[c] == old(links)[p]
    {
      var t := NodeLinks(p.parent, p.left, p.right);
      SetLinks(p, NodeLinks(c.parent, c.left, c.right));
      SetLinks(c, t);
      SetParent(p, c);
    }

    /** The two nodes exchange their link fields; the child that they share as a
        neighbour follows. */
    method SwapBodies(p: HeapNode, c: HeapNode, ghost s: HeapNode?, ghost l: HeapNode?, ghost r: HeapNode?, ghost g: HeapNode?)
      requires Mirrored() && p in links && c in links && p != c
      requires links[c] == NodeLinks(p, l, r) && (links[p] == NodeLinks(g, c, s) || links[p] == NodeLinks(g, s, c))
      requires s == null || (s in links && s != p && s != c)
      modifies `links, links.Keys`parent, links.Keys`left, links.Keys`right
      ensures Mirrored() && links.Keys == old(links).Keys
      ensures links == HeapShape.Adopt(HeapShape.Redirect(HeapShape.SetParent(old(links)[p := old(links)[c]][c := old(links)[p]], p, c), c, c, p), s, c)
      ensures links[p] == NodeLinks(c, l, r) && links[c].parent == g
    {
      TradeFields(p, c);
      if c.left == c {
        SetLeft(c, p);
        Adopt(c.right, c);
      } else {
        SetRight(c, p);
        Adopt(c.left, c);
      }
    }

    /** Exchanging a node with its child by exchanging their link fields. */
    method SwapLinks(p: HeapNode, c: HeapNode, ghost s: HeapNode?, ghost l: HeapNode?, ghost r: HeapNode?, ghost g: HeapNode?)
      requires Mirrored() && p in links && c in links && p != c
      requires links[c] == NodeLinks(p, l, r) && (links[p] == NodeLinks(g, c, s) || links[p] == NodeLinks(g, s, c))
      requires (s == null || s in links) && (l == null || l in links) && (r == null || r in links) && (g == null || g in links)
      requires s != p && s != c && l != p && l != c && r != p && r != c && g != p && g != c && (l != null ==> l != r)
      modifies `root, `links, links.Keys`parent, links.Keys`left, links.Keys`right
      ensures Mirrored() && links.Keys == old(links).Keys
      ensures SwapWrites(old(links), links, p, c, s, l, r, g)
      ensures root == if g == null then c else old(root)
    {
      SwapBodies(p, c, s, l, r, g);
      Adopt(p.left, p);
      Adopt(p.right, p);
      Redirect(c.parent, p, c);
    }
  
    /** The node at position `i` trades places with its child at `j`. */
    method Swap(p: HeapNode, c: HeapNode, ghost i: int, ghost j: int)
      requires Shaped() && 1 <= i && j / 2 == i && j <= |at| && at[i - 1] == p && at[j - 1] == c
      modifies `root, `at, `links, links.Keys`parent, links.Keys`left, links.Keys`right
      ensures Shaped() && at == Exchange(old(at), i, j) && links.Keys == old(links).Keys
    {
      SwapAt(p, c, i, j);
      SwapWhole(old(links), links, at, i, j);
      at := Exchange(at, i, j);
    }

    method SwapAt(p: HeapNode, c: HeapNode, ghost i: int, ghost j: int)
      requires Shaped() && 1 <= i && j / 2 == i && j <= |at| && at[i - 1] == p && at[j - 1] == c
      modifies `root, `links, links.Keys`parent, links.Keys`left, links.Keys`right
      ensures Mirrored() && links.Keys == old(links).Keys && root == if i == 1 then c else old(root)
      ensures SwapWrites(old(links), links, p, c, At(at, if j == 2 * i then j + 1 else j - 1), At(at, 2 * j), At(at, 2 * j + 1), At(at, i / 2))
    {
      ghost var k := if j == 2 * i then j + 1 else j - 1;
      ghost var s, l, r, g := At(at, k), At(at, 2 * j), At(at, 2 * j + 1), At(at, i / 2);
      Around(links, at, i, j);
      SwapLinks(p, c, s, l, r, g);
    }
  
    /** The number of levels that `n` positions reach into, and the offset of
        position `n` in the last one.  The shift stays within the source's signed
        integers because `n` is below `2^30`. */
    method Level(n: nat) returns (h: nat, off: nat)
      requires 1 <= n < 0x4000_0000
      ensures 1 <= h <= 30 && Pow2(h - 1) <= n < Pow2(h) && off == n - Pow2(h - 1)
    {
      h := 1;
      while Pow2(h) <= n
        invariant h >= 1 && Pow2(h - 1) <= n && h <= 30
        decreases n - h
      {
        Grows(h);
        Pow2Thirty();
        h := h + 1;
      }
      OffsetIs(n, h);
      off := Offset(n, h);
    }

    method Child(p: HeapNode, right: bool, ghost q: int) returns (c: HeapNode?)
      requires Shaped() && 1 <= q <= |at| && at[q - 1] == p
      ensures c == At(at, 2 * q + if right then 1 else 0)
    {
      assert JoinedAt(links, at, q);
      c := if right then p.right else p.left;
    }

    /** Walks down from the root along the bits of the offset of position `n`.
        The slot that is reached is the heap itself (no parent), or the right or
        left link of `p`. */
    method Slot(n: nat) returns (p: HeapNode?, right: bool)
      requires Shaped() && 1 <= n < 0x4000_0000 && cnt <= n <= cnt + 1
      ensures p == At(at, n / 2) && right == (n % 2 == 1) && (n > 1 ==> p != null)
    {
      var h, off := Level(n);
      var slot := root;
      p, right := null, true;
      var i := 1;
      ghost var q := 1;
      while i < h
        invariant 1 <= i <= h && q == Walk(off, h, i)
        invariant slot == At(at, q) && p == At(at, q / 2) && right == (q % 2 == 1)
        invariant i > 1 ==> p != null
      {
        WalkLeads(n, h, i);
        q := Walk(off, h, i + 1);
        p := slot;
        right := Bit(off, h - 1 - i);
        slot := Child(p, right, Walk(off, h, i));
        i := i + 1;
      }
      WalkLeads(n, h, h);
    }
  
    /** Moves a node one level up, over a later parent. */
    method RiseOnce(node: HeapNode, ghost k: int) returns (ghost h: int)
      requires Shaped() && Dated() && 2 <= k <= |at| && at[k - 1] == node && OrderedBelow(due, at, k)
      requires node.parent == at[k / 2 - 1] && Earlier(node.timeout, node.parent.timeout)
      modifies `root, `at, `links, links.Keys`parent, links.Keys`left, links.Keys`right
      ensures Shaped() && Dated() && links.Keys == old(links).Keys && |at| == |old(at)|
      ensures 1 <= h < k && at[h - 1] == node && OrderedBelow(due, at, h) && node.parent == At(at, h / 2)
    {
      h := k / 2;
      StepUp(due, at, k);
      Swap(node.parent, node, k / 2, k);
      assert JoinedAt(links, at, h);
    }

    /** Moves a node up until its parent is not later. */
    method SiftUp(node: HeapNode, ghost k0: int)
      requires Shaped() && Dated() && 1 <= k0 <= |at| && at[k0 - 1] == node && OrderedBelow(due, at, k0)
      modifies `root, `at, `links, links.Keys`parent, links.Keys`left, links.Keys`right
      ensures Valid() && links.Keys == old(links).Keys
    {
      ghost var k := k0;
      assert JoinedAt(links, at, k);
      while node.parent != null && Earlier(node.timeout, node.parent.timeout)
        invariant Shaped() && Dated() && links.Keys == old(links).Keys
        invariant 1 <= k <= |at| && at[k - 1] == node && OrderedBelow(due, at, k)
        invariant node.parent == At(at, k / 2)
        decreases k
      {
        k := RiseOnce(node, k);
      }
      OrderedWhenParent(due, at, k);
    }

    /** The earliest of a node and its children, the node itself before its left
        child and that before the right one. */
    method Smallest(node: HeapNode, ghost k: int) returns (small: HeapNode, ghost c: int)
      requires Shaped() && Dated() && 1 <= k <= |at| && at[k - 1] == node
      ensures small == node ==> forall j :: 2 <= j <= |at| && j / 2 == k ==> InOrderAt(due, at, j)
      ensures small != node ==> 2 <= c <= |at| && c / 2 == k && at[c - 1] == small
                                && Earlier(DueAt(due, at[c - 1]), DueAt(due, at[k - 1]))
      ensures small != node ==> forall j :: 2 <= j <= |at| && j / 2 == k ==> !Earlier(DueAt(due, at[j - 1]), DueAt(due, at[c - 1]))
    {
      assert JoinedAt(links, at, k);
      small, c := node, k;
      if node.left != null && Earlier(node.left.timeout, small.timeout) {
        small, c := node.left, 2 * k;
      }
      if node.right != null && Earlier(node.right.timeout, small.timeout) {
        small, c := node.right, 2 * k + 1;
      }
    }

    /** Moves a node one level down, below its earlier child. */
    method SinkOnce(node: HeapNode, small: HeapNode, ghost k: int, ghost c: int)
      requires Shaped() && Dated() && 1 <= k && c / 2 == k && 2 <= c <= |at| && at[k - 1] == node && at[c - 1] == small
      requires OrderedAround(due, at, k) && Earlier(DueAt(due, small), DueAt(due, node))
      requires forall j :: 2 <= j <= |at| && j / 2 == k ==> !Earlier(DueAt(due, at[j - 1]), DueAt(due, small))
      modifies `root, `at, `links, links.Keys`parent, links.Keys`left, links.Keys`right
      ensures Shaped() && Dated() && links.Keys == old(links).Keys && |at| == |old(at)|
      ensures at[c - 1] == node && OrderedAround(due, at, c)
    {
      StepDown(due, at, k, c);
      Swap(node, small, k, c);
    }

    /** Moves a node down until no child is earlier. */
    method SiftDown(node: HeapNode, ghost k0: int) returns (ghost k: int)
      requires Shaped() && Dated() && 1 <= k0 <= |at| && at[k0 - 1] == node && OrderedAround(due, at, k0)
      modifies `root, `at, `links, links.Keys`parent, links.Keys`left, links.Keys`right
      ensures Shaped() && Dated() && links.Keys == old(links).Keys
      ensures 1 <= k <= |at| && at[k - 1] == node && OrderedBelow(due, at, k)
    {
      k := k0;
      while true
        invariant Shaped() && Dated() && links.Keys == old(links).Keys
        invariant 1 <= k <= |at| && at[k - 1] == node && OrderedAround(due, at, k)
        decreases |at| - k
      {
        ghost var c;
        var small;
        small, c := Smallest(node, k);
        if small == node {
          return;
        }
        SinkOnce(node, small, k, c);
        k := c;
      }
    }
  
    /** Adds a node that is not in any heap. */
    method Insert(node: HeapNode)
      requires Valid() && node !in links && node.parent == node.left == node.right == null
      requires cnt + 1 < 0x4000_0000
      modifies this, links.Keys`parent, links.Keys`left, links.Keys`right, node`parent, node`left, node`right
      ensures Valid() && links.Keys == old(links).Keys + {node} && cnt == old(cnt) + 1
    {
      if cnt == 0 {
        root := node;
        cnt := 1;
        at, links, due := [node], links[node := NodeLinks(null, null, null)], due[node := node.timeout];
        assert JoinedAt(links, at, 1);
        return;
      }
      Append(node);
      AppendOrdered(old(due), due, old(at), node);
      SiftUp(node, |at|);
    }

    method PutSlot(p: HeapNode, right: bool, x: HeapNode?)
      requires Mirrored() && p in links
      modifies `links, p`left, p`right
      ensures Mirrored() && links.Keys == old(links).Keys && links == SetSlot(old(links), p, right, x)
    {
      if right {
        SetRight(p, x);
      } else {
        SetLeft(p, x);
      }
    }

    method Hang(node: HeapNode, p: HeapNode, right: bool)
      requires Mirrored() && Dated() && p in links && node !in links && node.left == node.right == null
      modifies `links, `due, p`left, p`right, node`parent
      ensures Mirrored() && Dated() && links.Keys == old(links).Keys + {node}
      ensures links == SetSlot(old(links), p, right, node)[node := NodeLinks(p, null, null)]
      ensures due == old(due)[node := node.timeout]
    {
      PutSlot(p, right, node);
      node.parent := p;
      links := links[node := NodeLinks(p, null, null)];
      due := due[node := node.timeout];
    }

    method Append(node: HeapNode)
      requires Shaped() && Dated() && node !in links && node.left == node.right == null
      requires 0 < cnt && cnt + 1 < 0x4000_0000
      modifies this, links.Keys`left, links.Keys`right, node`parent
      ensures Shaped() && Dated() && at == old(at) + [node] && links.Keys == old(links).Keys + {node}
      ensures due == old(due)[node := node.timeout]
    {
      var p, right := Slot(cnt + 1);
      HangLast(node, p, right);
    }

    method HangLast(node: HeapNode, p: HeapNode, right: bool)
      requires Shaped() && Dated() && node !in links && node.left == node.right == null
      requires 0 < cnt && p == At(at, (cnt + 1) / 2) && right == ((cnt + 1) % 2 == 1)
      modifies this, links.Keys`left, links.Keys`right, node`parent
      ensures Shaped() && Dated() && at == old(at) + [node] && links.Keys == old(links).Keys + {node}
      ensures due == old(due)[node := node.timeout]
    {
      ghost var longer := at + [node];
      AppendJoined(links, at, node);
      assert Members(longer) == Members(at) + {node};
      cnt := cnt + 1;
      Hang(node, p, right);
      at := longer;
    }
  
    /** Everything but the exact extent of `links`, in which nodes on their way out
        may still be. */
    ghost predicate Loose()
      reads this, links.Keys
    {
      Mirrored() && Dated() && Joined(links, at) && cnt == |at| && root == At(at, 1) && Members(at) <= links.Keys
    }

    /** Unhooks the last node in level order. */
    method CutLast() returns (last: HeapNode)
      requires Shaped() && Dated() && 0 < cnt < 0x4000_0000
      modifies this, links.Keys`left, links.Keys`right
      ensures Loose() && at == old(at)[..old(cnt) - 1] && last == old(at)[old(cnt) - 1]
      ensures links.Keys == old(links).Keys && due == old(due)
    {
      var p, right := Slot(cnt);
      last := Unhook(p, right);
    }

    method Unhook(p: HeapNode?, right: bool) returns (last: HeapNode)
      requires Shaped() && Dated() && 0 < cnt && p == At(at, cnt / 2) && right == (cnt % 2 == 1)
      modifies this, links.Keys`left, links.Keys`right
      ensures Loose() && at == old(at)[..old(cnt) - 1] && last == old(at)[old(cnt) - 1]
      ensures links.Keys == old(links).Keys && due == old(due)
    {
      ghost var cut := at[..cnt - 1];
      LastSlot(links, at);
      CutNodes(at);
      cnt := cnt - 1;
      last := ClearSlot(p, right);
      at := cut;
    }

    method ClearSlot(p: HeapNode?, right: bool) returns (was: HeapNode)
      requires Mirrored() && Dated() && (p == null ==> root != null)
      requires p != null ==> p in links && (if right then links[p].right else links[p].left) != null
      modifies `root, `links, links.Keys`left, links.Keys`right
      ensures Mirrored() && Dated() && links.Keys == old(links).Keys
      ensures was == if p == null then old(root) else if right then old(links)[p].right else old(links)[p].left
      ensures root == if p == null then null else old(root)
      ensures links == if p == null then old(links) else SetSlot(old(links), p, right, null)
    {
      if p == null {
        was := root;
        root := null;
      } else {
        was := if right then p.right else p.left;
        PutSlot(p, right, null);
      }
    }

    /** `child` takes over the links of `node`. */
    method TakeLinks(node: HeapNode, child: HeapNode, ghost l: HeapNode?, ghost r: HeapNode?, ghost p: HeapNode?)
      requires Mirrored() && Dated() && child in links && node in links && links[node] == NodeLinks(p, l, r)
      requires (p == null || p in links) && (l == null || l in links) && (r == null || r in links)
      requires child != node && child != l && child != r && child != p && node != l && node != r && node != p
      modifies `root, `links, links.Keys`parent, links.Keys`left, links.Keys`right
      ensures Mirrored() && Dated() && links.Keys == old(links).Keys
      ensures TakeoverWrites(old(links), links, node, child)
      ensures root == if p == null then child else old(root)
    {
      SetLinks(child, NodeLinks(node.parent, node.left, node.right));
      Adopt(child.left, child);
      Adopt(child.right, child);
      Redirect(node.parent, node, child);
    }

    /** `child`, from outside, takes over the place of `node`. */
    method Replace(node: HeapNode, child: HeapNode, ghost k: int)
      requires Loose() && child in links && child !in at && 1 <= k <= |at| && at[k - 1] == node
      modifies `root, `at, `links, links.Keys`parent, links.Keys`left, links.Keys`right
      ensures Loose() && at == old(at)[k - 1 := child] && links.Keys == old(links).Keys
    {
      PlaceNeighbours(links, at, k);
      TakeLinks(node, child, At(at, 2 * k), At(at, 2 * k + 1), At(at, k / 2));
      TakeoverJoined(old(links), links, at, k, child);
      at := at[k - 1 := child];
    }

    /** `n` is no longer one of the heap's nodes. */
    ghost method Drop(n: HeapNode)
      requires Loose() && n !in at && links.Keys == Members(at) + {n}
      modifies `links
      ensures Shaped() && Dated() && links.Keys == old(links).Keys - {n}
    {
      JoinedOnly(links, links - {n}, at);
      links := links - {n};
    }

    /** Removes any node of the heap; an empty heap is left alone. */
    method Remove(node: HeapNode)
      requires Valid() && (cnt == 0 || node in links) && cnt < 0x4000_0000
      modifies this, links.Keys`parent, links.Keys`left, links.Keys`right
      ensures Valid() && links.Keys == old(links).Keys - {node}
      ensures cnt == if old(cnt) == 0 then 0 else old(cnt) - 1
    {
      if cnt == 0 {
        return;
      }
      ghost var k := PositionOf(at, node);
      RemoveAt(node, k);
    }

    method RemoveAt(node: HeapNode, ghost k: int)
      requires Valid() && 1 <= k <= |at| && at[k - 1] == node && cnt < 0x4000_0000
      modifies this, links.Keys`parent, links.Keys`left, links.Keys`right
      ensures Valid() && links.Keys == old(links).Keys - {node} && cnt == old(cnt) - 1
    {
      ghost var was := at;
      if k == |at| { CutLeaves(due, at); } else { ReplaceLeaves(due, at, k); }
      var child := CutLast();
      if child == node {
        // the last node's slot was cleared, so the source's second look at the root
        // finds nothing to do
        assert child != root;
        Drop(node);
        return;
      }
      FillGap(node, child, k, was[..|was| - 1][k - 1 := child]);
    }

    /** `child` comes to the place of `node` and finds its level. */
    method FillGap(node: HeapNode, child: HeapNode, ghost k: int, ghost next: seq<HeapNode>)
      requires Loose() && child in links && child !in at && 1 <= k <= |at| && at[k - 1] == node
      requires next == at[k - 1 := child] && node !in next && links.Keys == Members(next) + {node}
      requires OrderedAround(due, next, k)
      modifies `root, `at, `links, links.Keys`parent, links.Keys`left, links.Keys`right
      ensures Valid() && links.Keys == old(links).Keys - {node} && cnt == old(cnt)
    {
      Replace(node, child, k);
      Drop(node);
      Settle(child, k);
    }

    /** Sift down, then up. */
    method Settle(node: HeapNode, ghost k0: int)
      requires Shaped() && Dated() && 1 <= k0 <= |at| && at[k0 - 1] == node && OrderedAround(due, at, k0)
      modifies `root, `at, `links, links.Keys`parent, links.Keys`left, links.Keys`right
      ensures Valid() && links.Keys == old(links).Keys && cnt == old(cnt)
    {
      ghost var k := SiftDown(node, k0);
      SiftUp(node, k);
    }
  
    /** No node of the heap is earlier than the root. */
    lemma RootFirst()
      requires Valid()
      ensures root == null <==> links.Keys == {}
      ensures root != null ==> root in links && forall n :: n in links ==> !Earlier(n.timeout, root.timeout)
    {
      if |at| > 0 {
        assert at[0] in Members(at);
        forall n | n in links ensures !Earlier(n.timeout, root.timeout) {
          var k := PositionOf(at, n);
          RootIsLeast(due, at, k);
        }
      }
    }

    /** Takes out the root, than which no remaining node is earlier. */
    method RemoveRoot() returns (first: HeapNode)
      requires Valid() && root != null && cnt < 0x4000_0000
      modifies this, links.Keys`parent, links.Keys`left, links.Keys`right
      ensures Valid() && first in old(links) && links.Keys == old(links).Keys - {first} && cnt == old(cnt) - 1
      ensures forall n :: n in links ==> !Earlier(n.timeout, first.timeout)
      ensures root == null <==> links.Keys == {}
    {
      RootFirst();
      first := root;
      Remove(first);
      RootFirst();
    }

    /** The nodes `out` were taken from the nodes `all`, due at `was`, in order. */
    ghost predicate Draining(was: Deadlines, all: set<HeapNode>, out: seq<HeapNode>)
      reads this, links.Keys
    {
      && Valid() && (root == null <==> links.Keys == {})
      && links.Keys <= all && Members(out) == all - links.Keys && HandedOut(was, out, links.Keys)
      && forall n :: n in links ==> due[n] == DueAt(was, n)
    }

    method DrainOne(ghost was: Deadlines, ghost all: set<HeapNode>, ghost out: seq<HeapNode>) returns (first: HeapNode)
      requires Draining(was, all, out) && root != null && cnt < 0x4000_0000
      modifies this, links.Keys`parent, links.Keys`left, links.Keys`right
      ensures Draining(was, all, out + [first]) && cnt == old(cnt) - 1 && links.Keys <= old(links).Keys
    {
      first := RemoveRoot();
      HandedOn(was, out, first, links.Keys);
    }

    /** Removing the root again and again hands out all nodes, earliest first. */
    method Drain() returns (out: seq<HeapNode>)
      requires Valid() && cnt < 0x4000_0000
      modifies this, links.Keys`parent, links.Keys`left, links.Keys`right
      ensures Valid() && cnt == 0 && |out| == old(cnt) && Members(out) == old(links).Keys
      ensures forall i, j :: 0 <= i < j < |out| ==> out[i] != out[j] && !Earlier(out[j].timeout, out[i].timeout)
    {
      out := [];
      RootFirst();
      ghost var was, all := due, links.Keys;
      while root != null
        invariant cnt < 0x4000_0000 && |out| + cnt == old(cnt) && links.Keys <= all && Draining(was, all, out)
        decreases cnt
      {
        var first := DrainOne(was, all, out);
        out := out + [first];
      }
      assert forall i :: 0 <= i < |out| ==> out[i] in Members(out);
    }
  }

  /** The nodes `out` were handed out in order, before those that are left. */
  ghost predicate HandedOut(due: Deadlines, out: seq<HeapNode>, left: set<HeapNode>) {
    && (forall i, j :: 0 <= i < j < |out| ==> out[i] != out[j] && !Earlier(DueAt(due, out[j]), DueAt(due, out[i])))
    && forall i, n :: 0 <= i < |out| && n in left ==> n != out[i] && !Earlier(DueAt(due, n), DueAt(due, out[i]))
  }

  lemma HandedOn(due: Deadlines, out: seq<HeapNode>, first: HeapNode, left: set<HeapNode>)
    requires HandedOut(due, out, left + {first}) && first !in left
    requires forall n :: n in left ==> !Earlier(DueAt(due, n), DueAt(due, first))
    ensures HandedOut(due, out + [first], left) && Members(out + [first]) == Members(out) + {first}
  {
  }

  /** The writes of a swap, seen on the whole heap. */
  lemma SwapWhole(m: LinkMap, m': LinkMap, at: seq<HeapNode>, i: int, j: int)
    requires Joined(m, at) && 1 <= i && j / 2 == i && j <= |at|
    requires SwapWrites(m, m', at[i - 1], at[j - 1], At(at, if j == 2 * i then j + 1 else j - 1), At(at, 2 * j), At(at, 2 * j + 1), At(at, i / 2))
    ensures Joined(m', Exchange(at, i, j)) && Members(Exchange(at, i, j)) == Members(at)
    ensures At(Exchange(at, i, j), 1) == if i == 1 then at[j - 1] else At(at, 1)
  {
    Around(m, at, i, j);
    SwapEffect(m, m', at[i - 1], at[j - 1], At(at, if j == 2 * i then j + 1 else j - 1), At(at, 2 * j), At(at, 2 * j + 1), At(at, i / 2));
    SwapJoined(m, m', at, i, j);
    ExchangeNodes(at, i, j);
  }

  lemma PositionOf(at: seq<HeapNode>, n: HeapNode) returns (k: int)
    requires n in at
    ensures 1 <= k <= |at| && at[k - 1] == n
  {
    var i :| 0 <= i < |at| && at[i] == n;
    k := i + 1;
  }

  /** What removing the last node leaves. */
  lemma CutLeaves(due: Deadlines, at: seq<HeapNode>)
    requires Distinct(at) && at != [] && Ordered(due, at)
    ensures Ordered(due, at[..|at| - 1])
    ensures at[|at| - 1] !in at[..|at| - 1] && Members(at) == Members(at[..|at| - 1]) + {at[|at| - 1]}
  {
    CutNodes(at);
    var cut := at[..|at| - 1];
    forall j | 2 <= j <= |cut| ensures InOrderAt(due, cut, j) {
      assert InOrderAt(due, at, j);
    }
  }

  /** What moving the last node into the place of another leaves. */
  lemma ReplaceLeaves(due: Deadlines, at: seq<HeapNode>, k: int)
    requires Distinct(at) && Ordered(due, at) && 1 <= k < |at|
    ensures var cut, at' := at[..|at| - 1], at[..|at| - 1][k - 1 := at[|at| - 1]];
            && at[|at| - 1] !in cut && at[k - 1] !in at' && Members(at) == Members(at') + {at[k - 1]}
            && OrderedAround(due, at', k)
  {
    CutNodes(at);
    ReplaceOrdered(due, at, k);
    var cut, at' := at[..|at| - 1], at[..|at| - 1][k - 1 := at[|at| - 1]];
    forall n | n in at ensures n in at' || n == at[k - 1] {
      var i :| 0 <= i < |at| && at[i] == n;
      if i == |at| - 1 { assert at'[k - 1] == n; } else if i != k - 1 { assert at'[i] == n; }
    }
  }

  lemma CutNodes(at: seq<HeapNode>)
    requires Distinct(at) && at != []
    ensures Members(at) == Members(at[..|at| - 1]) + {at[|at| - 1]} && at[|at| - 1] !in at[..|at| - 1]
  {
    assert at == at[..|at| - 1] + [at[|at| - 1]];
  }

  lemma ReplaceOrdered(due: Deadlines, at: seq<HeapNode>, k: int)
    requires Ordered(due, at) && 1 <= k < |at|
    ensures OrderedAround(due, at[..|at| - 1][k - 1 := at[|at| - 1]], k)
  {
    var at' := at[..|at| - 1][k - 1 := at[|at| - 1]];
    forall j | 2 <= j <= |at'| && j != k && j / 2 != k ensures InOrderAt(due, at', j) {
      assert InOrderAt(due, at, j);
    }
    forall j | 2 <= j <= |at'| && j / 2 == k && k >= 2
      ensures !Earlier(DueAt(due, at'[j - 1]), DueAt(due, at'[k / 2 - 1]))
    {
      assert InOrderAt(due, at, j) && InOrderAt(due, at, k);
    }
  }

  lemma AppendOrdered(due: Deadlines, due': Deadlines, at: seq<HeapNode>, x: HeapNode)
    requires Ordered(due, at) && x !in at && forall n :: n in at ==> DueAt(due', n) == DueAt(due, n)
    ensures OrderedBelow(due', at + [x], |at| + 1)
  {
    var at' := at + [x];
    forall j | 2 <= j <= |at| ensures InOrderAt(due', at', j) {
      assert InOrderAt(due, at, j);
    }
  }

  lemma {:induction false} Pow2Thirty()
    ensures Pow2(30) == 0x4000_0000
  {
    Pow2Ten(0);
    Pow2Ten(10);
    Pow2Ten(20);
  }

  lemma {:induction false} Grows(k: nat)
    ensures k < Pow2(k)
  {
    if k > 0 { Grows(k - 1); }
  }

  lemma OrderedWhenParent(due: Deadlines, at: seq<HeapNode>, k: int)
    requires 1 <= k <= |at| && OrderedBelow(due, at, k) && (k >= 2 ==> InOrderAt(due, at, k))
    ensures Ordered(due, at)
  {
  }

  lemma ExchangeNodes(at: seq<HeapNode>, i: int, j: int)
    requires 1 <= i <= |at| && 1 <= j <= |at|
    ensures Members(Exchange(at, i, j)) == Members(at)
  {
    var at' := Exchange(at, i, j);
    forall n | n in at ensures n in at' {
      var k :| 0 <= k < |at| && at[k] == n;
      assert at'[if k == i - 1 then j - 1 else if k == j - 1 then i - 1 else k] == n;
    }
  }
}
