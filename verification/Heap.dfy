/** The complete binary heap of src/lc_heap.c as a value: nodes in level order,
    the links that join them, and the order of their deadlines. */
module HeapShape {
  import opened Collections

  /** A point in time, as the event loop keeps it. */
  datatype TimeVal = TimeVal(sec: int, usec: int)

  /** `a` is strictly earlier than `b`. */
  predicate Earlier(a: TimeVal, b: TimeVal) {
    a.sec < b.sec || (a.sec == b.sec && a.usec < b.usec)
  }

  /** A heap node together with the timer that embeds it. */
  class HeapNode {
    var parent: HeapNode?
    var left: HeapNode?
    var right: HeapNode?
    var timeout: TimeVal
    var interval: TimeVal
    var active: bool
    var stop: bool

    constructor ()
      ensures parent == left == right == null && !active && !stop && timeout == interval == TimeVal(0, 0)
    {
      parent, left, right := null, null, null;
      timeout, interval := TimeVal(0, 0), TimeVal(0, 0);
      active, stop := false, false;
    }
  }

  /** The node at a position of a level-order sequence: the children of position
      `k` are at `2 * k` and `2 * k + 1`, counting from 1. */
  function At(at: seq<HeapNode>, k: int): HeapNode? {
    if 1 <= k <= |at| then at[k - 1] else null
  }

  datatype NodeLinks = NodeLinks(parent: HeapNode?, left: HeapNode?, right: HeapNode?)

  type LinkMap = map<HeapNode, NodeLinks>

  /** The links that the node at position `k` should have. */
  function Expected(at: seq<HeapNode>, k: int): NodeLinks {
    NodeLinks(At(at, k / 2), At(at, 2 * k), At(at, 2 * k + 1))
  }

  /** The links join the nodes in level order. */
  ghost predicate Joined(m: LinkMap, at: seq<HeapNode>) {
    Distinct(at) && forall k :: 1 <= k <= |at| ==> JoinedAt(m, at, k)
  }

  ghost predicate JoinedAt(m: LinkMap, at: seq<HeapNode>, k: int)
    requires 1 <= k <= |at|
  {
    at[k - 1] in m && m[at[k - 1]] == Expected(at, k)
  }

  function SetParent(m: LinkMap, n: HeapNode, x: HeapNode?): LinkMap
    requires n in m
  {
    m[n := m[n].(parent := x)]
  }

  function Adopt(m: LinkMap, n: HeapNode?, x: HeapNode?): LinkMap
    requires n == null || n in m
  {
    if n == null then m else SetParent(m, n, x)
  }

  /** `n`'s link to `was` leads to `now`. */
  function Redirect(m: LinkMap, n: HeapNode?, was: HeapNode?, now: HeapNode?): LinkMap
    requires n == null || n in m
  {
    if n == null then m
    else m[n := if m[n].left == was then m[n].(left := now) else m[n].(right := now)]
  }

  /** The other child of `p`. */
  function Sibling(m: LinkMap, p: HeapNode, c: HeapNode): HeapNode?
    requires p in m
  {
    if m[p].left == c then m[p].right else m[p].left
  }

  /** The writes that exchange a node with its child. */
  ghost predicate SwapWrites(m: LinkMap, m': LinkMap, p: HeapNode, c: HeapNode, s: HeapNode?, l: HeapNode?, r: HeapNode?, g: HeapNode?) {
    && p in m && c in m && (s == null || s in m) && (l == null || l in m) && (r == null || r in m) && (g == null || g in m)
    && m' == Redirect(Adopt(Adopt(Adopt(Redirect(SetParent(m[p := m[c]][c := m[p]], p, c), c, c, p), s, c), l, p), r, p), g, p, c)
  }

  /** The nodes around a node and its child, all different. */
  lemma Around(m: LinkMap, at: seq<HeapNode>, i: int, j: int)
    requires Joined(m, at) && 1 <= i && j / 2 == i && j <= |at|
    ensures var p, c, s := at[i - 1], at[j - 1], At(at, if j == 2 * i then j + 1 else j - 1);
            var l, r, g := At(at, 2 * j), At(at, 2 * j + 1), At(at, i / 2);
            && p in m && c in m && p != c && m[c] == NodeLinks(p, l, r) && (m[p] == NodeLinks(g, c, s) || m[p] == NodeLinks(g, s, c))
            && (s == null || s in m) && (l == null || l in m) && (r == null || r in m) && (g == null || g in m)
            && s != p && s != c && l != p && l != c && r != p && r != c && g != p && g != c
            && (s != null ==> s != l && s != r && s != g) && (l != null ==> l != r && l != g) && (r != null ==> r != g)
            && (g == null <==> i == 1)
  {
    assert JoinedAt(m, at, i) && JoinedAt(m, at, j);
    var k := if j == 2 * i then j + 1 else j - 1;
    if k <= |at| { assert JoinedAt(m, at, k); }
    if 2 * j <= |at| { assert JoinedAt(m, at, 2 * j); }
    if 2 * j + 1 <= |at| { assert JoinedAt(m, at, 2 * j + 1); }
    if i > 1 { assert JoinedAt(m, at, i / 2); }
  }

  lemma SwapDistinct(at: seq<HeapNode>, i: int, j: int)
    requires Distinct(at) && 0 <= i < |at| && 0 <= j < |at|
    ensures Distinct(at[i := at[j]][j := at[i]])
  {
  }

  /** What they come to, node by node. */
  ghost predicate SwapFacts(m: LinkMap, m': LinkMap, p: HeapNode, c: HeapNode, s: HeapNode?, l: HeapNode?, r: HeapNode?, g: HeapNode?) {
    && m'.Keys == m.Keys && p in m && c in m
    && m'[p] == NodeLinks(c, m[c].left, m[c].right)
    && m'[c] == (if m[p].left == c then NodeLinks(m[p].parent, p, m[p].right) else NodeLinks(m[p].parent, m[p].left, p))
    && (s != null ==> s in m && m'[s] == m[s].(parent := c))
    && (l != null ==> l in m && m'[l] == m[l].(parent := p))
    && (r != null ==> r in m && m'[r] == m[r].(parent := p))
    && (g != null ==> g in m && m'[g] == if m[g].left == p then m[g].(left := c) else m[g].(right := c))
    && forall n :: n in m && n != p && n != c && n != s && n != l && n != r && n != g ==> m'[n] == m[n]
  }

  lemma SwapEffect(m: LinkMap, m': LinkMap, p: HeapNode, c: HeapNode, s: HeapNode?, l: HeapNode?, r: HeapNode?, g: HeapNode?)
    requires SwapWrites(m, m', p, c, s, l, r, g)
    requires p != c && p != s && p != l && p != r && p != g && c != s && c != l && c != r && c != g
    requires (s != null ==> s != l && s != r && s != g) && (l != null ==> l != r && l != g) && (r != null ==> r != g)
    requires m[p].left == c || m[p].right == c
    ensures SwapFacts(m, m', p, c, s, l, r, g)
  {
  }

  lemma SwapJoined(m: LinkMap, m': LinkMap, at: seq<HeapNode>, i: int, j: int)
    requires Joined(m, at) && 1 <= i && j / 2 == i && j <= |at|
    requires var s := if j == 2 * i then j + 1 else j - 1;
             SwapFacts(m, m', at[i - 1], at[j - 1], At(at, s), At(at, 2 * j), At(at, 2 * j + 1), At(at, i / 2))
    ensures Joined(m', at[i - 1 := at[j - 1]][j - 1 := at[i - 1]])
  {
    var at' := at[i - 1 := at[j - 1]][j - 1 := at[i - 1]];
    SwapDistinct(at, i - 1, j - 1);
    forall k | 1 <= k <= |at'| ensures JoinedAt(m', at', k) {
      SwapJoinedAt(m, m', at, i, j, k);
    }
  }

  lemma SwapJoinedAt(m: LinkMap, m': LinkMap, at: seq<HeapNode>, i: int, j: int, k: int)
    requires Joined(m, at) && 1 <= i && j / 2 == i && j <= |at| && 1 <= k <= |at|
    requires var s := if j == 2 * i then j + 1 else j - 1;
             SwapFacts(m, m', at[i - 1], at[j - 1], At(at, s), At(at, 2 * j), At(at, 2 * j + 1), At(at, i / 2))
    ensures JoinedAt(m', at[i - 1 := at[j - 1]][j - 1 := at[i - 1]], k)
  {
    assert JoinedAt(m, at, i) && JoinedAt(m, at, j) && JoinedAt(m, at, k);
  }

  /** Only the links of the nodes in the sequence matter. */
  lemma JoinedOnly(m: LinkMap, m': LinkMap, at: seq<HeapNode>)
    requires Joined(m, at) && forall n :: n in at && n in m ==> n in m' && m'[n] == m[n]
    ensures Joined(m', at)
  {
    forall k | 1 <= k <= |at| ensures JoinedAt(m', at, k) {
      assert JoinedAt(m, at, k);
    }
  }

  /** The nodes around a position are all different. */
  lemma PlaceNeighbours(m: LinkMap, at: seq<HeapNode>, k: int)
    requires Joined(m, at) && 1 <= k <= |at|
    ensures var n, p, l, r := at[k - 1], At(at, k / 2), At(at, 2 * k), At(at, 2 * k + 1);
            && n in m && m[n] == NodeLinks(p, l, r) && n != p && n != l && n != r
            && (p == null || p in m) && (l == null || l in m) && (r == null || r in m)
            && (p != null ==> p != l && p != r) && (l != null ==> l != r)
            && (p == null <==> k == 1)
  {
    assert JoinedAt(m, at, k);
    if k > 1 { assert JoinedAt(m, at, k / 2); }
    if 2 * k <= |at| { assert JoinedAt(m, at, 2 * k); }
    if 2 * k + 1 <= |at| { assert JoinedAt(m, at, 2 * k + 1); }
  }

  function SetSlot(m: LinkMap, p: HeapNode, right: bool, x: HeapNode?): LinkMap
    requires p in m
  {
    m[p := if right then m[p].(right := x) else m[p].(left := x)]
  }

  /** A node at the end of the level order, hung below the node at half its place. */
  lemma AppendJoined(m: LinkMap, at: seq<HeapNode>, x: HeapNode)
    requires Joined(m, at) && |at| >= 1 && x !in m && x !in at
    ensures var n := |at| + 1; var p := at[n / 2 - 1];
            && p in m && Joined(SetSlot(m, p, n % 2 == 1, x)[x := NodeLinks(p, null, null)], at + [x])
  {
    var n, at' := |at| + 1, at + [x];
    assert JoinedAt(m, at, n / 2);
    var m' := SetSlot(m, at[n / 2 - 1], n % 2 == 1, x)[x := NodeLinks(at[n / 2 - 1], null, null)];
    forall k | 1 <= k <= |at'| ensures JoinedAt(m', at', k) {
      if k <= |at| { assert JoinedAt(m, at, k); }
    }
  }

  /** Without its last node. */
  lemma CutJoined(m: LinkMap, at: seq<HeapNode>)
    requires Joined(m, at) && |at| >= 2
    ensures var n := |at|; var p := at[n / 2 - 1];
            && p in m && Joined(SetSlot(m, p, n % 2 == 1, null), at[..n - 1])
  {
    var n, at' := |at|, at[..|at| - 1];
    assert JoinedAt(m, at, n / 2);
    var m' := SetSlot(m, at[n / 2 - 1], n % 2 == 1, null);
    forall k | 1 <= k <= |at'| ensures JoinedAt(m', at', k) {
      assert JoinedAt(m, at, k);
    }
  }

  /** What unhooking the last node reads and leaves. */
  lemma LastSlot(m: LinkMap, at: seq<HeapNode>)
    requires Joined(m, at) && at != []
    ensures var n := |at|; var p := At(at, n / 2);
            if n == 1 then p == null && Joined(m, at[..0])
            else
              && p != null && p in m && (if n % 2 == 1 then m[p].right else m[p].left) == at[n - 1]
              && Joined(SetSlot(m, p, n % 2 == 1, null), at[..n - 1]) && At(at[..n - 1], 1) == At(at, 1)
  {
    if |at| >= 2 {
      CutJoined(m, at);
      PlaceNeighbours(m, at, |at| / 2);
    }
  }

  /** The writes by which `x` takes over the links of `n`. */
  ghost predicate TakeoverWrites(m: LinkMap, m': LinkMap, n: HeapNode, x: HeapNode) {
    && n in m && (m[n].left == null || m[n].left in m) && (m[n].right == null || m[n].right in m)
    && (m[n].parent == null || m[n].parent in m)
    && m' == Redirect(Adopt(Adopt(m[x := m[n]], m[n].left, x), m[n].right, x), m[n].parent, n, x)
  }

  /** `x`, from outside, in the place of the node at position `k`. */
  lemma TakeoverJoined(m: LinkMap, m': LinkMap, at: seq<HeapNode>, k: int, x: HeapNode)
    requires Joined(m, at) && 1 <= k <= |at| && x !in at && x in m
    requires TakeoverWrites(m, m', at[k - 1], x)
    ensures Joined(m', at[k - 1 := x])
  {
    var at' := at[k - 1 := x];
    assert JoinedAt(m, at, k);
    forall i | 1 <= i <= |at'| ensures JoinedAt(m', at', i) {
      assert JoinedAt(m, at, i);
    }
  }

  // ---------- order ----------

  type Deadlines = map<HeapNode, TimeVal>

  function DueAt(due: Deadlines, n: HeapNode): TimeVal {
    if n in due then due[n] else TimeVal(0, 0)
  }

  /** No node is earlier than its parent. */
  ghost predicate InOrderAt(due: Deadlines, at: seq<HeapNode>, k: int)
    requires 2 <= k <= |at|
  {
    !Earlier(DueAt(due, at[k - 1]), DueAt(due, at[k / 2 - 1]))
  }

  ghost predicate Ordered(due: Deadlines, at: seq<HeapNode>)
  {
    forall k :: 2 <= k <= |at| ==> InOrderAt(due, at, k)
  }

  /** Only the node at position `k` may be out of order, towards its parent or its
      children; without it the two levels around it agree. */
  ghost predicate OrderedAround(due: Deadlines, at: seq<HeapNode>, k: int)
  {
    && (forall j :: 2 <= j <= |at| && j != k && j / 2 != k ==> InOrderAt(due, at, j))
    && forall j :: 2 <= j <= |at| && j / 2 == k && k >= 2 ==> !Earlier(DueAt(due, at[j - 1]), DueAt(due, at[k / 2 - 1]))
  }

  /** Only towards its parent. */
  ghost predicate OrderedBelow(due: Deadlines, at: seq<HeapNode>, k: int)
  {
    OrderedAround(due, at, k) && forall j :: 2 <= j <= |at| && j / 2 == k ==> InOrderAt(due, at, j)
  }

  function Exchange(at: seq<HeapNode>, i: int, j: int): seq<HeapNode>
    requires 1 <= i <= |at| && 1 <= j <= |at|
  {
    at[i - 1 := at[j - 1]][j - 1 := at[i - 1]]
  }

  /** One step up keeps the only disorder at the moving node. */
  lemma StepUp(due: Deadlines, at: seq<HeapNode>, k: int)
    requires 2 <= k <= |at| && OrderedBelow(due, at, k) && Earlier(DueAt(due, at[k - 1]), DueAt(due, at[k / 2 - 1]))
    ensures OrderedBelow(due, Exchange(at, k / 2, k), k / 2)
  {
    var at', h := Exchange(at, k / 2, k), k / 2;
    forall j | 2 <= j <= |at'| && j != h ensures InOrderAt(due, at', j) {
      if j != k { assert InOrderAt(due, at, j); }
      if j / 2 == k { assert !Earlier(DueAt(due, at[j - 1]), DueAt(due, at[h - 1])); }
    }
    forall j | 2 <= j <= |at'| && j / 2 == h && h >= 2
      ensures !Earlier(DueAt(due, at'[j - 1]), DueAt(due, at'[h / 2 - 1]))
    {
      assert InOrderAt(due, at, h);
      if j != k { assert InOrderAt(due, at, j); }
    }
  }

  /** One step down, to the earlier child `c`, does too. */
  lemma StepDown(due: Deadlines, at: seq<HeapNode>, k: int, c: int)
    requires 1 <= k && c / 2 == k && 2 <= c <= |at| && OrderedAround(due, at, k)
    requires Earlier(DueAt(due, at[c - 1]), DueAt(due, at[k - 1]))
    requires forall j :: 2 <= j <= |at| && j / 2 == k ==> !Earlier(DueAt(due, at[j - 1]), DueAt(due, at[c - 1]))
    ensures OrderedAround(due, Exchange(at, k, c), c)
  {
    var at' := Exchange(at, k, c);
    forall j | 2 <= j <= |at'| && j != c && j / 2 != c ensures InOrderAt(due, at', j) {
      if j != k && j / 2 != k { assert InOrderAt(due, at, j); }
    }
    forall j | 2 <= j <= |at'| && j / 2 == c
      ensures !Earlier(DueAt(due, at'[j - 1]), DueAt(due, at'[c / 2 - 1]))
    {
      assert InOrderAt(due, at, j);
    }
  }

  /** The root of an ordered heap is a minimum. */
  lemma {:induction false} RootIsLeast(due: Deadlines, at: seq<HeapNode>, k: int)
    requires Ordered(due, at) && 1 <= k <= |at|
    ensures !Earlier(DueAt(due, at[k - 1]), DueAt(due, at[0]))
  {
    if k > 1 {
      assert InOrderAt(due, at, k);
      RootIsLeast(due, at, k / 2);
    }
  }
}
