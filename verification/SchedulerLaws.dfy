/** Every step keeps the invariant of module Scheduler. */
module SchedulerLaws {
  import opened Collections
  import opened ChannelSpec
  import Q = ReadyQueue
  import opened Scheduler

  /** The account of all coroutines in the middle of a step, when the running one
      has done `did` since its operation began. */
  ghost predicate Tale(s: State, did: seq<Event>) {
    forall k :: 0 <= k < |s.cos| ==> TaleOf(s, k, did)
  }

  ghost predicate TaleOf(s: State, k: Co, did: seq<Event>) {
    if s.running == Some(k) then Of(s, k).since <= |s.log| && Did(s.log, Of(s, k).since, k) == did else Accounted(s, k)
  }

  ghost predicate Mid(s: State, did: seq<Event>) {
    Net(s) && Book(s) && Tale(s, did)
  }

  /** What does not change in the middle of a step. */
  ghost predicate Same(s: State, s': State) {
    && s'.running == s.running && |s'.chans| == |s.chans| && |s'.cos| == |s.cos| && s'.later == s.later
    && (s.running.Some? ==> Of(s', s.running.value) == Of(s, s.running.value))
    && (forall ch :: 0 <= ch < |s.chans| ==> s'.chans[ch].closed == s.chans[ch].closed)
  }

  // ---------- waiters and places ----------

  /** The running coroutine's own record may change while it runs on. */
  lemma NetTouch(s: State, s': State, me: Co)
    requires Net(s) && s.running == Some(me)
    requires s' == s.(cos := s'.cos, log := s'.log) && me < |s.cos| == |s'.cos| && s'.cos == s.cos[me := s'.cos[me]]
    requires s'.cos[me].status == Running && (s'.cos[me].pc.User? || s'.cos[me].pc.Choosing?) && CasesOk(s', me)
    ensures Net(s')
  {
    forall ch | 0 <= ch < |s.chans| ensures NodesOk(s', ch) {
      assert NodesOk(s, ch);
      forall x | x in s.chans[ch].w ensures WriterOk(s', ch, x) { assert WriterOk(s, ch, x); }
      forall x | x in s.chans[ch].r ensures ReaderOk(s', ch, x) { assert ReaderOk(s, ch, x); }
    }
    assert Placed(s, me);
    forall k | 0 <= k < |s.cos| ensures Placed(s', k) && CasesOk(s', k) {
      assert Placed(s, k) && CasesOk(s, k);
      if k != me && Of(s, k).status.Waiting? && Of(s, k).pc.Parked? {
        forall x | x in Of(s, k).pc.cases ensures CasePosted(s', k, x) { assert CasePosted(s, k, x); }
      }
    }
  }

  /** No channel but `ch` changes. */
  ghost predicate OnlyAt(s: State, s': State, ch: nat) {
    ch < |s.chans| == |s'.chans| && forall i :: 0 <= i < |s.chans| && i != ch ==> s'.chans[i] == s.chans[i]
  }

  /** No waiter of `k` is left. */
  ghost predicate Gone(s: State, k: Co) {
    forall ch :: 0 <= ch < |s.chans| ==> GoneFrom(s.chans[ch], k)
  }

  ghost predicate GoneFrom(c: Channel, k: Co) {
    (forall x :: x in c.w ==> x.co != Some(k)) && forall x :: x in c.r ==> x.co != k
  }

  /** A waiting coroutine was made ready; a reader may have received its value. */
  ghost predicate MadeReady(y: Coroutine, y': Coroutine) {
    && y.status.Waiting? && y'.status.Ready? && y'.since == y.since && y'.result == y.result
    && (y'.pc == y.pc || (y.pc.PopWait? && y'.pc.PopWait? && y'.pc.ch == y.pc.ch))
  }

  /** On channel `ch` the waiters of `ks` went, those coroutines became ready and
      joined the queue; a value may have been left behind by nobody. */
  ghost predicate Woke(s: State, s': State, ch: nat, ks: seq<Co>) {
    && OnlyAt(s, s', ch) && s'.running == s.running && s'.later == s.later && s'.rq == s.rq + ks && Distinct(ks)
    && |s'.cos| == |s.cos|
    && (forall k :: 0 <= k < |s.cos| ==> if k in ks then MadeReady(s.cos[k], s'.cos[k]) else s'.cos[k] == s.cos[k])
    && (forall k :: k in ks ==> k < |s.cos|)
    && (forall k :: k in ks && !s.cos[k].pc.Parked? ==> Gone(s', k))
    && (forall k :: k in ks && s'.cos[k].pc.PopWait? && s'.cos[k].pc.got.None? ==> s'.cos[k].pc.ch < |s'.chans| && s'.chans[s'.cos[k].pc.ch].closed)
    && Tidy(s'.chans[ch]) && (s.chans[ch].closed ==> s'.chans[ch].closed)
    && (forall x :: x in s'.chans[ch].w ==> x in s.chans[ch].w || (x.co.None? && !x.select))
    && (forall x :: x in s'.chans[ch].r ==> x in s.chans[ch].r)
    && (forall x :: x in s.chans[ch].w && x.co.Some? && x.co.value !in ks ==> x in s'.chans[ch].w)
    && (forall x :: x in s.chans[ch].r && x.co !in ks ==> x in s'.chans[ch].r)
  }

  lemma WokeNodes(s: State, s': State, ch: nat, ks: seq<Co>, i: nat)
    requires Net(s) && Woke(s, s', ch, ks) && i < |s.chans|
    ensures NodesOk(s', i)
  {
    assert NodesOk(s, i);
    forall k | k in ks && !s.cos[k].pc.Parked? ensures GoneFrom(s'.chans[i], k) { assert Gone(s', k); }
    forall x | x in s'.chans[i].w ensures WriterOk(s', i, x) {
      if x.co.Some? {
        assert WriterOk(s, i, x);
      } else if x in s.chans[i].w {
        assert WriterOk(s, i, x);
      }
    }
    forall x | x in s'.chans[i].r ensures ReaderOk(s', i, x) {
      assert ReaderOk(s, i, x);
    }
  }

  lemma WokePlaced(s: State, s': State, ch: nat, ks: seq<Co>, k: Co)
    requires Net(s) && Woke(s, s', ch, ks) && k < |s.cos|
    ensures Placed(s', k) && CasesOk(s', k)
  {
    assert Placed(s, k) && CasesOk(s, k);
    if k !in ks && Of(s, k).status.Waiting? && Of(s, k).pc.Parked? {
      forall x | x in Of(s, k).pc.cases ensures CasePosted(s', k, x) { assert CasePosted(s, k, x); }
    }
  }

  lemma WokeNet(s: State, s': State, ch: nat, ks: seq<Co>)
    requires Net(s) && Woke(s, s', ch, ks)
    ensures Net(s')
  {
    forall i | 0 <= i < |s.chans| ensures NodesOk(s', i) { WokeNodes(s, s', ch, ks, i); }
    forall k | 0 <= k < |s.cos| ensures Placed(s', k) && CasesOk(s', k) { WokePlaced(s, s', ch, ks, k); }
    forall k | k in ks ensures k !in s.rq && k !in s.later && s.running != Some(k) { assert Placed(s, k); }
    Q.Joined(s.rq, ks);
  }

  /** A coroutine parked in a pop or a push has one waiter. */
  lemma ParkedReader(s: State, ch: nat, i: nat)
    requires Net(s) && ch < |s.chans| && s.chans[ch].r != [] && !s.chans[ch].r[0].select && i < |s.chans|
    ensures GoneFrom(if i == ch then s.chans[ch].(r := s.chans[ch].r[1..]) else s.chans[i], s.chans[ch].r[0].co)
  {
    assert NodesOk(s, ch) && NodesOk(s, i);
    assert ReaderOk(s, ch, s.chans[ch].r[0]) && UniqueReaders(s.chans[ch].r);
    forall x | x in s.chans[i].w ensures x.co != Some(s.chans[ch].r[0].co) { assert WriterOk(s, i, x); }
    forall x | x in s.chans[i].r && i != ch ensures x.co != s.chans[ch].r[0].co { assert ReaderOk(s, i, x); }
  }

  lemma ParkedWriter(s: State, ch: nat, i: nat)
    requires Net(s) && ch < |s.chans| && s.chans[ch].w != [] && s.chans[ch].w[0].co.Some? && !s.chans[ch].w[0].select && i < |s.chans|
    ensures GoneFrom(if i == ch then s.chans[ch].(w := s.chans[ch].w[1..]) else s.chans[i], s.chans[ch].w[0].co.value)
  {
    assert NodesOk(s, ch) && NodesOk(s, i);
    assert WriterOk(s, ch, s.chans[ch].w[0]) && UniqueWriters(s.chans[ch].w);
    forall x | x in s.chans[i].w && i != ch ensures x.co != s.chans[ch].w[0].co { assert WriterOk(s, i, x); }
    forall x | x in s.chans[i].r ensures x.co != s.chans[ch].w[0].co.value { assert ReaderOk(s, i, x); }
  }

  /** Whom a write to the channel wakes. */
  function WriteWakes(c: Channel): seq<Co> {
    if c.closed || c.r == [] then [] else [c.r[0].co]
  }

  lemma WriteWoke(s: State, ch: nat, v: Value)
    requires Net(s) && ch < |s.chans| && !s.stuck && !TryWrite(s, ch, v).0.stuck
    ensures Woke(s, TryWrite(s, ch, v).0, ch, WriteWakes(s.chans[ch]))
  {
    var s', c := TryWrite(s, ch, v).0, s.chans[ch];
    assert Tidy(c);
    if !c.closed && c.r != [] {
      var k := c.r[0].co;
      assert NodesOk(s, ch) && ReaderOk(s, ch, c.r[0]);
      assert Placed(s, k) && UniqueReaders(c.r);
      if !c.r[0].select {
        forall i | 0 <= i < |s.chans| ensures GoneFrom(s'.chans[i], k) { ParkedReader(s, ch, i); }
      }
    }
  }

  function ReadWakes(c: Channel): seq<Co> {
    if c.closed || c.w == [] || c.w[0].co.None? then [] else [c.w[0].co.value]
  }

  lemma ReadWoke(s: State, ch: nat)
    requires Net(s) && ch < |s.chans| && !s.stuck && !TryRead(s, ch).0.stuck
    ensures Woke(s, TryRead(s, ch).0, ch, ReadWakes(s.chans[ch]))
  {
    var s', c := TryRead(s, ch).0, s.chans[ch];
    assert Tidy(c);
    if !c.closed && c.w != [] {
      assert NodesOk(s, ch) && WriterOk(s, ch, c.w[0]);
      assert UniqueWriters(c.w);
      if c.w[0].co.Some? {
        assert Placed(s, c.w[0].co.value);
        if !c.w[0].select {
          forall i | 0 <= i < |s.chans| ensures GoneFrom(s'.chans[i], c.w[0].co.value) { ParkedWriter(s, ch, i); }
        }
      }
    }
  }

  // ---------- values ----------

  function Opt(v: Option<Value>): seq<Value> {
    if v.Some? then [v.value] else []
  }

  /** One channel's account over a change of the log and the channel. */
  lemma Balance(log: seq<Event>, log': seq<Event>, ch: nat, c: Channel, c': Channel, put: Option<Value>, take: Option<Value>)
    requires Conserved(log, ch, c) && !c.closed
    requires Puts(log', ch) == Puts(log, ch) + Opt(put) && Takes(log', ch) == Takes(log, ch) + Opt(take)
    requires Held(c) + One(put) == Held(c') + One(take)
    ensures Conserved(log', ch, c')
  {
    var p, t, h, h' := multiset(Puts(log, ch)), multiset(Takes(log, ch)), Held(c), Held(c');
    assert multiset(Puts(log', ch)) == p + One(put);
    assert multiset(Takes(log', ch)) == t + One(take);
    assert p + One(put) == t + (h + One(put));
  }

  /** Channel `ch` accepted `put` and delivered `take`; no other channel did. */
  ghost predicate Moved(s: State, s': State, ch: nat, put: Option<Value>, take: Option<Value>) {
    OnlyAt(s, s', ch) && MovedLog(s.log, s'.log, ch, put, take)
  }

  ghost predicate MovedLog(log: seq<Event>, log': seq<Event>, ch: nat, put: Option<Value>, take: Option<Value>) {
    && (forall i: nat :: Puts(log', i) == if i == ch then Puts(log, i) + Opt(put) else Puts(log, i))
    && (forall i: nat :: Takes(log', i) == if i == ch then Takes(log, i) + Opt(take) else Takes(log, i))
  }

  lemma BookMoved(s: State, s': State, ch: nat, put: Option<Value>, take: Option<Value>)
    requires Book(s) && Moved(s, s', ch, put, take) && !s.chans[ch].closed
    requires Held(s.chans[ch]) + One(put) == Held(s'.chans[ch]) + One(take)
    ensures Book(s')
  {
    forall i | 0 <= i < |s.chans| ensures Conserved(s'.log, i, s'.chans[i]) {
      assert Conserved(s.log, i, s.chans[i]);
      if i == ch {
        Balance(s.log, s'.log, ch, s.chans[ch], s'.chans[ch], put, take);
      }
    }
  }

  lemma PutThenTake(log: seq<Event>, e: Event, f: Event)
    requires e.put && !f.put && f.ch == e.ch && f.v == e.v
    ensures MovedLog(log, log + [e] + [f], e.ch, Some(e.v), Some(e.v))
  {
    LogStep(log, e);
    LogStep(log + [e], f);
  }

  lemma OneEvent(log: seq<Event>, e: Event)
    ensures MovedLog(log, log + [e], e.ch, if e.put then Some(e.v) else None, if e.put then None else Some(e.v))
  {
    LogStep(log, e);
  }

  lemma NoEvent(log: seq<Event>, ch: nat)
    ensures MovedLog(log, log, ch, None, None)
  {
  }

  /** What a write leaves of the channels and the log. */
  ghost predicate WroteTo(s: State, s': State, ch: nat, v: Value)
    requires ch < |s.chans|
  {
    var c, e := s.chans[ch], Event(s.running, true, ch, v);
    && s'.chans == s.chans[ch := Write(c, v).chan]
    && s'.log == if WriteTakes(c, v).Some? then s.log + [e] + [Event(Write(c, v).reader, false, ch, v)]
                 else if WritePuts(c, v).Some? then s.log + [e] else s.log
  }

  lemma WriteShape(s: State, ch: nat, v: Value)
    requires ch < |s.chans| && !s.chans[ch].closed
    ensures WroteTo(s, TryWrite(s, ch, v).0, ch, v)
  {
  }

  lemma WroteLog(s: State, s': State, ch: nat, v: Value)
    requires ch < |s.chans| && !s.chans[ch].closed && WroteTo(s, s', ch, v)
    ensures Moved(s, s', ch, WritePuts(s.chans[ch], v), WriteTakes(s.chans[ch], v)) && s'.chans[ch] == Write(s.chans[ch], v).chan
  {
    var c, e := s.chans[ch], Event(s.running, true, ch, v);
    if WriteTakes(c, v).Some? {
      PutThenTake(s.log, e, Event(Write(c, v).reader, false, ch, v));
    } else if WritePuts(c, v).Some? {
      OneEvent(s.log, e);
    } else {
      NoEvent(s.log, ch);
    }
  }

  lemma WroteBook(s: State, s': State, ch: nat, v: Value)
    requires Book(s) && ch < |s.chans| && !s.chans[ch].closed && WroteTo(s, s', ch, v)
    ensures Book(s')
  {
    WroteLog(s, s', ch, v);
    WriteHeld(s.chans[ch], v);
    BookMoved(s, s', ch, WritePuts(s.chans[ch], v), WriteTakes(s.chans[ch], v));
  }

  ghost predicate ReadFrom(s: State, s': State, ch: nat)
    requires ch < |s.chans|
  {
    var c := s.chans[ch];
    && s'.chans == s.chans[ch := Read(c).chan]
    && s'.log == if Read(c).value.Some? then s.log + [Event(s.running, false, ch, Read(c).value.value)] else s.log
  }

  lemma ReadShape(s: State, ch: nat)
    requires ch < |s.chans|
    ensures ReadFrom(s, TryRead(s, ch).0, ch)
  {
  }

  lemma ReadLog(s: State, s': State, ch: nat)
    requires ch < |s.chans| && ReadFrom(s, s', ch)
    ensures Moved(s, s', ch, None, Read(s.chans[ch]).value) && s'.chans[ch] == Read(s.chans[ch]).chan
  {
    var value := Read(s.chans[ch]).value;
    if value.Some? {
      OneEvent(s.log, Event(s.running, false, ch, value.value));
    } else {
      NoEvent(s.log, ch);
    }
  }

  lemma ReadBook(s: State, s': State, ch: nat)
    requires Book(s) && ch < |s.chans| && !s.chans[ch].closed && ReadFrom(s, s', ch)
    ensures Book(s')
  {
    ReadLog(s, s', ch);
    ReadHeld(s.chans[ch]);
    BookMoved(s, s', ch, None, Read(s.chans[ch]).value);
  }

  lemma TaleWriteOf(s: State, ch: nat, v: Value, k: Co)
    requires ch < |s.chans| && !s.chans[ch].closed && !s.stuck && !TryWrite(s, ch, v).0.stuck
    requires k < |s.cos| && TaleOf(s, k, [])
    requires s.chans[ch].r != [] ==> ReaderOk(s, ch, s.chans[ch].r[0]) && s.running != Some(s.chans[ch].r[0].co)
    ensures var (s', done) := TryWrite(s, ch, v); TaleOf(s', k, if done then [Event(s.running, true, ch, v)] else [])
  {
    var e, c := Event(s.running, true, ch, v), s.chans[ch];
    LogStep(s.log, e);
    LogStep(s.log + [e], Event(if c.r != [] then Some(c.r[0].co) else None, false, ch, v));
  }

  lemma TaleWrite(s: State, ch: nat, v: Value)
    requires Net(s) && Tale(s, []) && ch < |s.chans| && !s.chans[ch].closed && !s.stuck && !TryWrite(s, ch, v).0.stuck
    ensures var (s', done) := TryWrite(s, ch, v); Tale(s', if done then [Event(s.running, true, ch, v)] else [])
  {
    var (s', done) := TryWrite(s, ch, v);
    WriteWoke(s, ch, v);
    HeadReader(s, ch);
    var did := if done then [Event(s.running, true, ch, v)] else [];
    forall k | 0 <= k < |s.cos| ensures TaleOf(s', k, did) {
      assert TaleOf(s, k, []);
      TaleWriteOf(s, ch, v, k);
    }
  }

  lemma HeadReader(s: State, ch: nat)
    requires Net(s) && ch < |s.chans|
    ensures s.chans[ch].r != [] ==> ReaderOk(s, ch, s.chans[ch].r[0]) && s.running != Some(s.chans[ch].r[0].co)
  {
    assert NodesOk(s, ch);
    if s.chans[ch].r != [] { assert ReaderOk(s, ch, s.chans[ch].r[0]) && Placed(s, s.chans[ch].r[0].co); }
  }

  lemma HeadWriter(s: State, ch: nat)
    requires Net(s) && ch < |s.chans|
    ensures s.chans[ch].w != [] ==> WriterOk(s, ch, s.chans[ch].w[0]) && (s.chans[ch].w[0].co.Some? ==> s.running != s.chans[ch].w[0].co)
  {
    assert NodesOk(s, ch);
    if s.chans[ch].w != [] {
      assert WriterOk(s, ch, s.chans[ch].w[0]);
      if s.chans[ch].w[0].co.Some? { assert Placed(s, s.chans[ch].w[0].co.value); }
    }
  }

  lemma TaleReadOf(s: State, ch: nat, k: Co)
    requires ch < |s.chans| && !s.chans[ch].closed && !s.stuck && !TryRead(s, ch).0.stuck
    requires k < |s.cos| && TaleOf(s, k, [])
    requires s.chans[ch].w != [] ==> WriterOk(s, ch, s.chans[ch].w[0]) && (s.chans[ch].w[0].co.Some? ==> s.running != s.chans[ch].w[0].co)
    ensures var (s', done, value) := TryRead(s, ch);
            TaleOf(s', k, if value.Some? then [Event(s.running, false, ch, value.value)] else [])
  {
    var value := Read(s.chans[ch]).value;
    if value.Some? { LogStep(s.log, Event(s.running, false, ch, value.value)); }
  }

  lemma TaleRead(s: State, ch: nat)
    requires Net(s) && Tale(s, []) && ch < |s.chans| && !s.chans[ch].closed && !s.stuck && !TryRead(s, ch).0.stuck
    ensures var (s', done, value) := TryRead(s, ch);
            Tale(s', if value.Some? then [Event(s.running, false, ch, value.value)] else [])
  {
    var (s', done, value) := TryRead(s, ch);
    ReadWoke(s, ch);
    HeadWriter(s, ch);
    var did := if value.Some? then [Event(s.running, false, ch, value.value)] else [];
    forall k | 0 <= k < |s.cos| ensures TaleOf(s', k, did) {
      assert TaleOf(s, k, []);
      TaleReadOf(s, ch, k);
    }
  }

  lemma QuietWrite(s: State, ch: nat, v: Value)
    requires ch < |s.chans| && !s.chans[ch].closed
    ensures var (t, done) := TryWrite(s, ch, v); !done ==> t.log == s.log
  {
    WriteShape(s, ch, v);
  }
}
