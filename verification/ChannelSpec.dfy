/** What a channel of src/lc_channel.c holds, as a value, and what writing to it
    and reading from it do.  Waiters stand newest first. */
module ChannelSpec {
  import opened Collections

  type Co = nat
  type Value = int

  /** A blocked writer; `co` is None for a value that nobody waits with. */
  datatype Writer = Writer(co: Option<Co>, ele: Value, select: bool)

  datatype Reader = Reader(co: Co, select: bool)

  datatype Channel = Channel(cap: nat, ring: seq<Value>, w: seq<Writer>, r: seq<Reader>, closed: bool)

  predicate WBlocked(c: Channel) {
    !c.closed && c.r == [] && (c.cap == 0 || |c.ring| == c.cap)
  }

  predicate RBlocked(c: Channel) {
    !c.closed && c.w == [] && (c.cap == 0 || c.ring == [])
  }

  /** The result of an attempt to write: whether it is done, who is to be woken,
      and who received the value. */
  datatype Written = Written(chan: Channel, done: bool, wake: Option<Co>, reader: Option<Co>)

  function Write(c: Channel, v: Value): Written {
    if c.closed then Written(c, true, None, None)
    else if WBlocked(c) then Written(c, false, None, None)
    else if c.r != [] then
      var r := c.r[0];
      Written(c.(r := c.r[1..]), !r.select, Some(r.co), if r.select then None else Some(r.co))
    else Written(c.(ring := c.ring + [v]), true, None, None)
  }

  /** The result of an attempt to read. */
  datatype ReadOut = ReadOut(chan: Channel, done: bool, wake: Option<Co>, value: Option<Value>)

  function Read(c: Channel): ReadOut {
    if c.closed then ReadOut(c, true, None, None)
    else if RBlocked(c) then ReadOut(c, false, None, None)
    else if c.w != [] then
      var w := c.w[0];
      ReadOut(c.(w := c.w[1..]), !w.select, w.co, if w.select then None else Some(w.ele))
    else if c.ring != [] then ReadOut(c.(ring := c.ring[1..]), true, None, Some(c.ring[0]))
    else ReadOut(c, false, None, None)
  }

  /** The waiters that `co` did not post. */
  function WritersWithout(w: seq<Writer>, co: Co): (out: seq<Writer>)
    ensures forall x :: x in out <==> x in w && x.co != Some(co)
  {
    if w == [] then [] else if w[0].co == Some(co) then WritersWithout(w[1..], co) else [w[0]] + WritersWithout(w[1..], co)
  }

  function ReadersWithout(r: seq<Reader>, co: Co): (out: seq<Reader>)
    ensures forall x :: x in out <==> x in r && x.co != co
  {
    if r == [] then [] else if r[0].co == co then ReadersWithout(r[1..], co) else [r[0]] + ReadersWithout(r[1..], co)
  }

  /** Whom closing wakes, in order: writers, then readers. */
  function WriterCos(w: seq<Writer>): seq<Co> {
    if w == [] then [] else (if w[0].co.Some? then [w[0].co.value] else []) + WriterCos(w[1..])
  }

  function ReaderCos(r: seq<Reader>): seq<Co> {
    if r == [] then [] else [r[0].co] + ReaderCos(r[1..])
  }

  function Sleepers(c: Channel): seq<Co> {
    WriterCos(c.w) + ReaderCos(c.r)
  }

  lemma {:induction false} WriterCosInOrder(w: seq<Writer>, i: nat, j: nat)
    requires i < j < |w| && w[i].co.Some? && w[j].co.Some?
    ensures Ahead(WriterCos(w), w[i].co.value, w[j].co.value)
  {
    var first := if w[0].co.Some? then [w[0].co.value] else [];
    if i > 0 {
      WriterCosInOrder(w[1..], i - 1, j - 1);
      AheadBehind(first, WriterCos(w[1..]), w[i].co.value, w[j].co.value);
    } else {
      WriterCoIn(w[1..], j - 1);
      AheadAcross(first, WriterCos(w[1..]), w[i].co.value, w[j].co.value);
    }
  }

  lemma {:induction false} WriterCoIn(w: seq<Writer>, i: nat)
    requires i < |w| && w[i].co.Some?
    ensures w[i].co.value in WriterCos(w)
  {
    if i > 0 { WriterCoIn(w[1..], i - 1); }
  }

  lemma {:induction false} ReaderCosAt(r: seq<Reader>)
    ensures |ReaderCos(r)| == |r| && forall i :: 0 <= i < |r| ==> ReaderCos(r)[i] == r[i].co
  {
    if r != [] { ReaderCosAt(r[1..]); }
  }

  /** Closing wakes writers first, then readers, and each from the front of the list. */
  lemma SleepersInOrder(c: Channel)
    ensures forall i, j :: 0 <= i < j < |c.w| && c.w[i].co.Some? && c.w[j].co.Some? ==> Ahead(Sleepers(c), c.w[i].co.value, c.w[j].co.value)
    ensures forall i, j :: 0 <= i < j < |c.r| ==> Ahead(Sleepers(c), c.r[i].co, c.r[j].co)
    ensures forall i, j :: 0 <= i < |c.w| && 0 <= j < |c.r| && c.w[i].co.Some? ==> Ahead(Sleepers(c), c.w[i].co.value, c.r[j].co)
  {
    ReaderCosAt(c.r);
    forall i, j | 0 <= i < j < |c.w| && c.w[i].co.Some? && c.w[j].co.Some? ensures Ahead(Sleepers(c), c.w[i].co.value, c.w[j].co.value) {
      WriterCosInOrder(c.w, i, j);
      AheadBefore(WriterCos(c.w), ReaderCos(c.r), c.w[i].co.value, c.w[j].co.value);
    }
    forall i, j | 0 <= i < j < |c.r| ensures Ahead(Sleepers(c), c.r[i].co, c.r[j].co) {
      assert ReaderCos(c.r)[i] == c.r[i].co && ReaderCos(c.r)[j] == c.r[j].co;
      AheadBehind(WriterCos(c.w), ReaderCos(c.r), c.r[i].co, c.r[j].co);
    }
    forall i, j | 0 <= i < |c.w| && 0 <= j < |c.r| && c.w[i].co.Some? ensures Ahead(Sleepers(c), c.w[i].co.value, c.r[j].co) {
      WriterCoIn(c.w, i);
      assert ReaderCos(c.r)[j] == c.r[j].co;
      AheadAcross(WriterCos(c.w), ReaderCos(c.r), c.w[i].co.value, c.r[j].co);
    }
  }

  /** Taking waiters back leaves the others in their order. */
  lemma {:induction false} WritersWithoutLast(w: seq<Writer>, x: Writer, co: Co)
    ensures WritersWithout(w + [x], co) == WritersWithout(w, co) + if x.co == Some(co) then [] else [x]
  {
    if w == [] {
      assert w + [x] == [x];
    } else {
      assert (w + [x])[1..] == w[1..] + [x];
      WritersWithoutLast(w[1..], x, co);
    }
  }

  lemma {:induction false} ReadersWithoutLast(r: seq<Reader>, x: Reader, co: Co)
    ensures ReadersWithout(r + [x], co) == ReadersWithout(r, co) + if x.co == co then [] else [x]
  {
    if r == [] {
      assert r + [x] == [x];
    } else {
      assert (r + [x])[1..] == r[1..] + [x];
      ReadersWithoutLast(r[1..], x, co);
    }
  }

  /** The values of blocked writers, select offers aside, oldest first. */
  function Pending(w: seq<Writer>): seq<Value> {
    if w == [] then [] else Pending(w[1..]) + if w[0].select then [] else [w[0].ele]
  }

  /** The values that were accepted and not delivered, in the order of acceptance
      if nothing but blocked writers stands behind a full ring. */
  function Outstanding(c: Channel): seq<Value> {
    c.ring + Pending(c.w)
  }

  /** The values in the channel's keeping. */
  function Held(c: Channel): multiset<Value> {
    multiset(c.ring) + multiset(Pending(c.w))
  }

  function One(v: Option<Value>): multiset<Value> {
    if v.Some? then multiset{v.value} else multiset{}
  }

  /** What a write puts into the channel's account, and what it takes out again. */
  function WritePuts(c: Channel, v: Value): Option<Value> {
    if Write(c, v).done then Some(v) else None
  }

  function WriteTakes(c: Channel, v: Value): Option<Value> {
    if Write(c, v).reader.Some? then Some(v) else None
  }

  /** A value that is written stays, or goes to a reader at once. */
  lemma WriteHeld(c: Channel, v: Value)
    requires !c.closed
    ensures Held(c) + One(WritePuts(c, v)) == Held(Write(c, v).chan) + One(WriteTakes(c, v))
  {
    if !WBlocked(c) && c.r == [] {
      LastOf(c.ring, v);
    }
  }

  lemma FirstOf(s: seq<Value>)
    requires s != []
    ensures multiset(s) == multiset(s[1..]) + multiset{s[0]}
  {
    assert s == [s[0]] + s[1..];
  }

  lemma LastOf(s: seq<Value>, v: Value)
    ensures multiset(s + [v]) == multiset(s) + multiset{v}
  {
  }

  lemma ReadHeld(c: Channel)
    requires !c.closed
    ensures Held(c) == Held(Read(c).chan) + One(Read(c).value)
  {
    var x := Read(c);
    if RBlocked(c) {
    } else if c.w != [] {
      if !c.w[0].select { LastOf(Pending(c.w[1..]), c.w[0].ele); }
      assert multiset(Pending(c.w)) == multiset(Pending(c.w[1..])) + One(x.value);
    } else if c.ring != [] {
      FirstOf(c.ring);
    }
  }

  /** One more blocked writer; a select's offer is not in the channel's keeping. */
  lemma AddHeld(c: Channel, x: Writer)
    ensures Held(c.(w := [x] + c.w)) == Held(c) + One(if x.select then None else Some(x.ele))
  {
    assert ([x] + c.w)[1..] == c.w;
    if x.select {
      assert Pending(c.w) + [] == Pending(c.w);
    } else {
      LastOf(Pending(c.w), x.ele);
    }
  }

  ghost predicate SelectFree(c: Channel) {
    (forall x :: x in c.w ==> !x.select) && (forall x :: x in c.r ==> !x.select)
  }

  /** Readers and writers do not wait at the same time, and each waits for a
      reason. */
  ghost predicate Exclusive(c: Channel) {
    && |c.ring| <= c.cap
    && (c.w != [] ==> c.r == [] && |c.ring| == c.cap)
    && (c.r != [] ==> c.w == [] && c.ring == [])
    && (c.closed ==> c.w == [] && c.r == [])
  }

  ghost predicate Constant(s: seq<Value>, v: Value) {
    forall i :: 0 <= i < |s| ==> s[i] == v
  }

  /** A sequence that equals its own rotation by one repeats a single value. */
  lemma {:induction false} RotationIff(s: seq<Value>, v: Value)
    ensures s + [v] == [v] + s <==> Constant(s, v)
  {
    if s + [v] == [v] + s {
      RotationConstant(s, v, |s|);
    }
    if Constant(s, v) {
      assert forall i :: 0 <= i < |s| ==> (s + [v])[i] == ([v] + s)[i];
    }
  }

  lemma {:induction false} RotationConstant(s: seq<Value>, v: Value, n: nat)
    requires s + [v] == [v] + s && n <= |s|
    ensures Constant(s[..n], v)
  {
    if n > 0 {
      RotationConstant(s, v, n - 1);
      assert (s + [v])[n - 1] == s[n - 1];
      assert ([v] + s)[n - 1] == if n == 1 then v else s[n - 2];
      assert n > 1 ==> s[..n - 1][n - 2] == v;
    }
  }

  lemma {:induction false} PendingCount(w: seq<Writer>)
    requires forall x :: x in w ==> !x.select
    ensures |Pending(w)| == |w| && (w != [] ==> Pending(w) == Pending(w[1..]) + [w[0].ele])
  {
    if w != [] { PendingCount(w[1..]); }
  }

  /** Writing puts the value last: either a waiting reader takes it while nothing is
      outstanding, or it joins the end. */
  lemma {:induction false} WriteAtEnd(c: Channel, v: Value)
    requires Exclusive(c) && SelectFree(c) && !c.closed
    ensures var x := Write(c, v);
      && Exclusive(x.chan) && SelectFree(x.chan)
      && (x.done ==> Outstanding(c) + [v] == (if x.reader.Some? then [v] else []) + Outstanding(x.chan))
      && (!x.done ==> x.chan == c && Outstanding(c) + [v] == Outstanding(c.(w := [Writer(None, v, false)] + c.w)))
  {
    assert Pending([]) == [];
    assert Pending([Writer(None, v, false)] + c.w) == Pending(c.w) + [v] by {
      assert ([Writer(None, v, false)] + c.w)[1..] == c.w;
    }
    assert c.r != [] ==> c.r[0] in c.r;
  }

  /** Reading takes the newest outstanding value when a writer is blocked, else the
      oldest.  What stays in the channel therefore goes on being the rest of what it
      accepted, in order, exactly when no writer is blocked, or all outstanding values
      are the same. */
  lemma {:induction false} ReadInOrderIff(c: Channel, puts: seq<Value>, takes: seq<Value>)
    requires Exclusive(c) && SelectFree(c) && !RBlocked(c) && !c.closed
    requires puts == takes + Outstanding(c)
    ensures var x := Read(c);
      && x.done && x.value.Some? && Exclusive(x.chan) && SelectFree(x.chan)
      && (puts == takes + [x.value.value] + Outstanding(x.chan)
          <==> c.w == [] || Constant(Outstanding(c), c.w[0].ele))
  {
    var x := Read(c);
    if c.w == [] {
      assert Outstanding(c) == [c.ring[0]] + Outstanding(x.chan);
    } else {
      assert c.w[0] in c.w;
      PendingCount(c.w);
      var rest, v := Outstanding(x.chan), c.w[0].ele;
      assert Outstanding(c) == rest + [v];
      RotationIff(rest, v);
      assert puts == takes + (rest + [v]);
      assert takes + [v] + rest == takes + ([v] + rest);
      if puts == takes + [v] + rest {
        assert puts[|takes|..] == rest + [v] == [v] + rest;
      }
      if Constant(rest + [v], v) {
        assert forall i :: 0 <= i < |rest| ==> rest[i] == (rest + [v])[i];
      }
    }
  }

  /** The read delivers the oldest outstanding value exactly when no writer is blocked,
      or the newest one's value is the same. */
  lemma {:induction false} ReadIsNextIff(c: Channel)
    requires Exclusive(c) && SelectFree(c) && !RBlocked(c) && !c.closed
    ensures Outstanding(c) != [] && Read(c).value.Some?
    ensures Read(c).value.value == Outstanding(c)[0] <==> c.w == [] || c.w[0].ele == Outstanding(c)[0]
  {
    if c.w != [] {
      assert c.w[0] in c.w;
      PendingCount(c.w);
    }
  }

  /** Two writers blocked on a full ring of one: the newest value overtakes both
      others. */
  lemma ReadOvertakes()
    ensures var c := Channel(1, [10], [Writer(Some(2), 30, false), Writer(Some(1), 20, false)], [], false);
      && Exclusive(c) && SelectFree(c) && Outstanding(c) == [10, 20, 30] && Read(c).value == Some(30)
  {
    var c := Channel(1, [10], [Writer(Some(2), 30, false), Writer(Some(1), 20, false)], [], false);
    assert c.w[1..] == [Writer(Some(1), 20, false)] && c.w[1..][1..] == [];
    assert Pending(c.w[1..][1..]) == [];
    assert Pending(c.w[1..]) == [20];
  }
}
