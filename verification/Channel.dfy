/** The channel of src/lc_channel.c with its ring buffer, updated in place.  The
    list of waiters is a sequence that starts at the sentinel's `next`. */
module Channels {
  import opened Collections
  import opened ChannelSpec
  import opened LinkedLists

  /** The part of a ring buffer from `head` up to `tail`, around its end. */
  function Part(q: seq<Value>, head: nat, tail: nat, full: bool): seq<Value>
    requires head <= |q| && tail <= |q|
  {
    if full || head > tail then q[head..] + q[..tail] else q[head..tail]
  }

  function Next(i: nat, n: nat): (j: nat)
    requires i < n
    ensures j == if i + 1 < n then i + 1 else 0
  {
    (i + 1) % n
  }

  lemma PartPush(q: seq<Value>, head: nat, tail: nat, v: Value)
    requires head < |q| && tail < |q|
    ensures var next := Next(tail, |q|);
            Part(q[tail := v], head, next, head == next) == Part(q, head, tail, false) + [v]
  {
    var q' := q[tail := v];
    assert q'[..tail + 1] == q[..tail] + [v];
    if head <= tail {
      assert q'[head..tail + 1] == q[head..tail] + [v];
      if tail + 1 == |q| {
        assert q'[head..] + q'[..0] == q'[head..tail + 1];
      }
    } else {
      assert q'[head..] == q[head..];
    }
  }

  lemma PartPop(q: seq<Value>, head: nat, tail: nat, full: bool)
    requires head < |q| && tail < |q| && (full <==> head == tail)
    ensures Part(q, head, tail, full) == [q[head]] + Part(q, Next(head, |q|), tail, false)
  {
    assert q[head..] == [q[head]] + q[head + 1..];
    if head >= tail {
      assert q[head..] + q[..tail] == [q[head]] + (q[head + 1..] + q[..tail]);
      if head + 1 == |q| {
        assert q[head + 1..] + q[..tail] == q[0..tail];
      }
    } else {
      assert q[head..tail] == [q[head]] + q[head + 1..tail];
    }
  }

  /** What is left of a list of writers after looking at the one at place `i`. */
  lemma PassWriter(w: seq<Writer>, i: nat, co: Co)
    requires i < |w|
    ensures if w[i].co == Some(co) then
              var w' := w[..i] + w[i + 1..];
              w[..i] + WritersWithout(w[i..], co) == w'[..i] + WritersWithout(w'[i..], co)
            else w[..i] + WritersWithout(w[i..], co) == w[..i + 1] + WritersWithout(w[i + 1..], co)
  {
    assert w[i..][1..] == w[i + 1..];
    if w[i].co == Some(co) {
      assert (w[..i] + w[i + 1..])[..i] == w[..i] && (w[..i] + w[i + 1..])[i..] == w[i + 1..];
    } else {
      assert w[..i + 1] == w[..i] + [w[i]];
    }
  }

  lemma PassReader(r: seq<Reader>, i: nat, co: Co)
    requires i < |r|
    ensures if r[i].co == co then
              var r' := r[..i] + r[i + 1..];
              r[..i] + ReadersWithout(r[i..], co) == r'[..i] + ReadersWithout(r'[i..], co)
            else r[..i] + ReadersWithout(r[i..], co) == r[..i + 1] + ReadersWithout(r[i + 1..], co)
  {
    assert r[i..][1..] == r[i + 1..];
    if r[i].co == co {
      assert (r[..i] + r[i + 1..])[..i] == r[..i] && (r[..i] + r[i + 1..])[i..] == r[i + 1..];
    } else {
      assert r[..i + 1] == r[..i] + [r[i]];
    }
  }

  class Chan {
    const queue: array?<Value>
    var head: nat
    var tail: nat
    var full: bool
    var closed: bool
    const w: List<Writer>
    const r: List<Reader>

    ghost predicate RingOk()
      reads `head, `tail, `full
    {
      queue != null ==> queue.Length > 0 && head < queue.Length && tail < queue.Length && (full ==> head == tail)
    }

    ghost predicate Valid()
      reads this, w, w.Repr, r, r.Repr
    {
      && RingOk() && w.Valid() && r.Valid() && w.Repr !! r.Repr && this !in w.Repr && this !in r.Repr
      && (queue != null ==> queue !in w.Repr && queue !in r.Repr)
    }

    ghost function Ring(): (s: seq<Value>)
      reads `head, `tail, `full, queue
      requires RingOk()
      ensures queue != null ==> |s| <= queue.Length && (|s| == queue.Length <==> full) && (s == [] <==> head == tail && !full)
    {
      if queue == null then [] else Part(queue[..], head, tail, full)
    }

    ghost function State(): Channel
      reads this, queue, w, r
      requires RingOk()
    {
      Channel(if queue == null then 0 else queue.Length, Ring(), w.items, r.items, closed)
    }

    constructor (cnt: nat)
      ensures Valid() && fresh(w.Repr) && fresh(r.Repr) && State() == Channel(cnt, [], [], [], false)
    {
      if cnt == 0 {
        queue := null;
      } else {
        queue := new Value[cnt](_ => 0);
      }
      head, tail, full, closed := 0, 0, false, false;
      w := new List(Writer(None, 0, false));
      r := new List(Reader(0, false));
    }

    predicate QueueFull()
      reads this
      requires RingOk() && queue != null
      ensures QueueFull() <==> |Ring()| == queue.Length
    {
      head == tail && full
    }

    predicate QueueEmpty()
      reads this
      requires RingOk() && queue != null
      ensures QueueEmpty() <==> Ring() == []
    {
      head == tail && !full
    }

    predicate IsWBlocked()
      reads this, queue, w, w.Repr, r, r.Repr
      requires Valid()
      ensures IsWBlocked() <==> WBlocked(State())
    {
      if closed then false
      else if !r.IsEmpty() then false
      else if queue != null then QueueFull()
      else true
    }

    predicate IsRBlocked()
      reads this, queue, w, w.Repr, r, r.Repr
      requires Valid()
      ensures IsRBlocked() <==> RBlocked(State())
    {
      if closed then false
      else if !w.IsEmpty() then false
      else if queue != null then QueueEmpty()
      else true
    }

    /** Stores at the tail and moves it on. */
    method QueuePush(v: Value)
      requires RingOk() && queue != null && |Ring()| < queue.Length
      modifies `tail, `full, queue
      ensures RingOk() && Ring() == old(Ring()) + [v]
    {
      PartPush(queue[..], head, tail, v);
      queue[tail] := v;
      tail := Next(tail, queue.Length);
      full := head == tail;
    }

    /** Loads from the head and moves it on. */
    method QueuePop() returns (v: Value)
      requires RingOk() && queue != null && Ring() != []
      modifies `head, `full
      ensures RingOk() && old(Ring()) == [v] + Ring()
    {
      PartPop(queue[..], head, tail, full);
      v := queue[head];
      head := Next(head, queue.Length);
      full := false;
    }

    /** An attempt to write; `wake` is the coroutine to be made ready. */
    method W(v: Value) returns (done: bool, wake: Option<Co>, reader: Option<Co>)
      requires Valid()
      modifies `tail, `full, queue, r.Repr
      ensures Valid() && r.Repr == old(r.Repr) && Written(State(), done, wake, reader) == Write(old(State()), v)
    {
      if closed {
        return true, None, None;
      }
      if IsWBlocked() {
        return false, None, None;
      }
      if !r.IsEmpty() {
        var x := r.TakeFirst();
        return !x.select, Some(x.co), if x.select then None else Some(x.co);
      } else {
        QueuePush(v);
        return true, None, None;
      }
    }

    /** An attempt to read.  When the ring is read no writer waits, so the source's
        refill of the ring from a blocked writer never runs. */
    method R() returns (done: bool, wake: Option<Co>, value: Option<Value>)
      requires Valid()
      modifies `head, `full, w.Repr
      ensures Valid() && w.Repr == old(w.Repr) && ReadOut(State(), done, wake, value) == Read(old(State()))
    {
      if closed {
        return true, None, None;
      }
      if IsRBlocked() {
        return false, None, None;
      }
      if !w.IsEmpty() {
        var x := w.TakeFirst();
        return !x.select, x.co, if x.select then None else Some(x.ele);
      } else {
        var v := QueuePop();
        assert w.IsEmpty();
        return true, None, Some(v);
      }
    }

    /** Links a new node after the sentinel. */
    method WBlock(co: Option<Co>, v: Value, select: bool)
      requires Valid()
      modifies w.Repr
      ensures Valid() && fresh(w.Repr - old(w.Repr))
      ensures State() == old(State()).(w := [Writer(co, v, select)] + old(State()).w)
    {
      w.Push(Writer(co, v, select));
    }

    method RBlock(co: Co, select: bool)
      requires Valid()
      modifies r.Repr
      ensures Valid() && fresh(r.Repr - old(r.Repr))
      ensures State() == old(State()).(r := [Reader(co, select)] + old(State()).r)
    {
      r.Push(Reader(co, select));
    }

    /** Walks along the list and unlinks every waiter of `co`. */
    method WdBlock(co: Co)
      requires Valid()
      modifies w.Repr
      ensures Valid() && w.Repr == old(w.Repr) && State() == old(State()).(w := WritersWithout(old(State()).w, co))
    {
      UnlinkWriters(w, co);
    }

    method RdBlock(co: Co)
      requires Valid()
      modifies r.Repr
      ensures Valid() && r.Repr == old(r.Repr) && State() == old(State()).(r := ReadersWithout(old(State()).r, co))
    {
      UnlinkReaders(r, co);
    }

    /** Closes, and hands out the coroutines to be made ready. */
    method Close() returns (wake: seq<Co>)
      requires Valid()
      modifies `closed, w.Repr, r.Repr
      ensures Valid() && w.Repr == old(w.Repr) && r.Repr == old(r.Repr)
      ensures State() == if old(closed) then old(State()) else old(State()).(closed := true, w := [], r := [])
      ensures wake == if old(closed) then [] else Sleepers(old(State()))
    {
      if closed {
        return [];
      }
      closed := true;
      var first := UnlinkAllWriters(w);
      var second := UnlinkAllReaders(r);
      wake := first + second;
    }
  }

  // ---------- walks along a list of waiters ----------

  ghost predicate WritersLeft(all: seq<Writer>, s: seq<Writer>, i: nat, co: Co) {
    i <= |s| && WritersWithout(all, co) == s[..i] + WritersWithout(s[i..], co)
  }

  /** The walk goes over the writer at place `i`, or unlinks it. */
  lemma WritersPassed(all: seq<Writer>, s: seq<Writer>, i: nat, co: Co)
    requires WritersLeft(all, s, i, co) && i < |s|
    ensures if s[i].co == Some(co) then WritersLeft(all, s[..i] + s[i + 1..], i, co) else WritersLeft(all, s, i + 1, co)
  {
    PassWriter(s, i, co);
  }

  lemma WritersDone(all: seq<Writer>, s: seq<Writer>, co: Co)
    requires WritersLeft(all, s, |s|, co)
    ensures s == WritersWithout(all, co)
  {
    assert s[..|s|] == s && s[|s|..] == [];
  }

  method UnlinkWriters(l: List<Writer>, co: Co)
    requires l.Valid()
    modifies l.Repr
    ensures l.Valid() && l.Repr == old(l.Repr) && l.items == WritersWithout(old(l.items), co)
  {
    ghost var i, all := 0, l.items;
    l.After(0);
    assert WritersLeft(all, l.items, 0, co);
    var curr := l.head.next;
    while curr != l.head
      invariant l.Valid() && l.Repr == old(l.Repr) && i <= |l.nodes| == |l.items|
      invariant curr == if i < |l.nodes| then l.nodes[i] else l.head
      invariant curr == l.head <==> i == |l.nodes|
      invariant WritersLeft(all, l.items, i, co)
      decreases |l.nodes| - i
    {
      WritersPassed(all, l.items, i, co);
      if curr.item.co == Some(co) {
        curr := l.StepBack(curr, i);
      } else {
        i := i + 1;
      }
      l.After(i);
      curr := curr.next;
    }
    WritersDone(all, l.items, co);
  }

  ghost predicate ReadersLeft(all: seq<Reader>, s: seq<Reader>, i: nat, co: Co) {
    i <= |s| && ReadersWithout(all, co) == s[..i] + ReadersWithout(s[i..], co)
  }

  lemma ReadersPassed(all: seq<Reader>, s: seq<Reader>, i: nat, co: Co)
    requires ReadersLeft(all, s, i, co) && i < |s|
    ensures if s[i].co == co then ReadersLeft(all, s[..i] + s[i + 1..], i, co) else ReadersLeft(all, s, i + 1, co)
  {
    PassReader(s, i, co);
  }

  lemma ReadersDone(all: seq<Reader>, s: seq<Reader>, co: Co)
    requires ReadersLeft(all, s, |s|, co)
    ensures s == ReadersWithout(all, co)
  {
    assert s[..|s|] == s && s[|s|..] == [];
  }

  method UnlinkReaders(l: List<Reader>, co: Co)
    requires l.Valid()
    modifies l.Repr
    ensures l.Valid() && l.Repr == old(l.Repr) && l.items == ReadersWithout(old(l.items), co)
  {
    ghost var i, all := 0, l.items;
    l.After(0);
    assert ReadersLeft(all, l.items, 0, co);
    var curr := l.head.next;
    while curr != l.head
      invariant l.Valid() && l.Repr == old(l.Repr) && i <= |l.nodes| == |l.items|
      invariant curr == if i < |l.nodes| then l.nodes[i] else l.head
      invariant curr == l.head <==> i == |l.nodes|
      invariant ReadersLeft(all, l.items, i, co)
      decreases |l.nodes| - i
    {
      ReadersPassed(all, l.items, i, co);
      if curr.item.co == co {
        curr := l.StepBack(curr, i);
      } else {
        i := i + 1;
      }
      l.After(i);
      curr := curr.next;
    }
    ReadersDone(all, l.items, co);
  }

  /** Unlinks one writer after the other; those that are coroutines are woken. */
  method UnlinkAllWriters(l: List<Writer>) returns (wake: seq<Co>)
    requires l.Valid()
    modifies l.Repr
    ensures l.Valid() && l.Repr == old(l.Repr) && l.items == [] && wake == WriterCos(old(l.items))
  {
    wake := [];
    while !l.IsEmpty()
      invariant l.Valid() && l.Repr == old(l.Repr)
      invariant wake + WriterCos(l.items) == WriterCos(old(l.items))
      decreases |l.items|
    {
      var x := l.TakeFirst();
      FirstWriterCo(x, l.items);
      if x.co.Some? {
        wake := wake + [x.co.value];
      }
    }
  }

  lemma FirstWriterCo(x: Writer, w: seq<Writer>)
    ensures WriterCos([x] + w) == (if x.co.Some? then [x.co.value] else []) + WriterCos(w)
  {
    assert ([x] + w)[1..] == w;
  }

  method UnlinkAllReaders(l: List<Reader>) returns (wake: seq<Co>)
    requires l.Valid()
    modifies l.Repr
    ensures l.Valid() && l.Repr == old(l.Repr) && l.items == [] && wake == ReaderCos(old(l.items))
  {
    wake := [];
    while !l.IsEmpty()
      invariant l.Valid() && l.Repr == old(l.Repr)
      invariant wake + ReaderCos(l.items) == ReaderCos(old(l.items))
      decreases |l.items|
    {
      var x := l.TakeFirst();
      FirstReaderCo(x, l.items);
      wake := wake + [x.co];
    }
  }

  lemma FirstReaderCo(x: Reader, r: seq<Reader>)
    ensures ReaderCos([x] + r) == [x.co] + ReaderCos(r)
  {
    assert ([x] + r)[1..] == r;
  }
}
