/** The steps of module Scheduler, one by one, keep its invariant. */
module SchedulerSteps {
  import opened Collections
  import opened ChannelSpec
  import opened Scheduler
  import opened SchedulerLaws

  lemma WokeSame(s: State, s': State, ch: nat, ks: seq<Co>)
    requires Net(s) && Woke(s, s', ch, ks) && s'.chans[ch].closed == s.chans[ch].closed
    ensures Same(s, s')
  {
    if s.running.Some? {
      assert Placed(s, s.running.value);
    }
  }

  lemma WriteNet(s: State, ch: nat, v: Value)
    requires Net(s) && ch < |s.chans| && !s.stuck && !TryWrite(s, ch, v).0.stuck
    ensures Same(s, TryWrite(s, ch, v).0) && Net(TryWrite(s, ch, v).0)
  {
    var s' := TryWrite(s, ch, v).0;
    WriteWoke(s, ch, v);
    WokeNet(s, s', ch, WriteWakes(s.chans[ch]));
    WokeSame(s, s', ch, WriteWakes(s.chans[ch]));
  }

  lemma WriteMid(s: State, ch: nat, v: Value)
    requires Mid(s, []) && ch < |s.chans| && !s.chans[ch].closed && !s.stuck && !TryWrite(s, ch, v).0.stuck
    ensures var (s', done) := TryWrite(s, ch, v);
            Same(s, s') && Mid(s', if done then [Event(s.running, true, ch, v)] else [])
  {
    WriteNet(s, ch, v);
    WriteShape(s, ch, v);
    WroteBook(s, TryWrite(s, ch, v).0, ch, v);
    TaleWrite(s, ch, v);
  }

  lemma ReadMid(s: State, ch: nat)
    requires Mid(s, []) && ch < |s.chans| && !s.chans[ch].closed && !s.stuck && !TryRead(s, ch).0.stuck
    ensures var (s', done, value) := TryRead(s, ch);
            Same(s, s') && Mid(s', if value.Some? then [Event(s.running, false, ch, value.value)] else []) && (done <==> value.Some?)
  {
    var s' := TryRead(s, ch).0;
    ReadWoke(s, ch);
    WokeNet(s, s', ch, ReadWakes(s.chans[ch]));
    WokeSame(s, s', ch, ReadWakes(s.chans[ch]));
    ReadShape(s, ch);
    ReadBook(s, s', ch);
    TaleRead(s, ch);
  }

  lemma StaysRunning(t: State)
    requires Net(t)
    ensures t.running.Some? ==> Of(t, t.running.value).status.Running?
  {
  }

  // ---------- the frame of an operation ----------

  lemma BegunMid(s: State)
    requires Inv(s) && Free(s)
    ensures Mid(Begun(s), []) && Begun(s).chans == s.chans && Begun(s).running == s.running && Begun(s).stuck == s.stuck
    ensures s.running.Some? ==> Of(Begun(s), s.running.value).pc.User?
  {
    var s' := Begun(s);
    if s.running.Some? {
      assert Placed(s, s.running.value);
      NetTouch(s, s', s.running.value);
    }
    forall ch | 0 <= ch < |s.chans| ensures Conserved(s'.log, ch, s'.chans[ch]) {
      assert Conserved(s.log, ch, s.chans[ch]);
    }
    forall k | 0 <= k < |s.cos| ensures TaleOf(s', k, []) {
      assert Accounted(s, k);
    }
  }

  lemma ChoosingMid(s: State)
    requires Inv(s) && s.running.Some? && Of(s, s.running.value).pc.Choosing?
    ensures Mid(s, [])
  {
    forall k | 0 <= k < |s.cos| ensures TaleOf(s, k, []) {
      assert Accounted(s, k);
    }
  }

  lemma EndedInv(s: State, did: seq<Event>, result: Result)
    requires Mid(s, did) && (s.running.Some? ==> did == Effects(s.running.value, result))
    ensures Inv(Ended(s, result))
  {
    var s' := Ended(s, result);
    if s.running.Some? {
      assert Placed(s, s.running.value);
      NetTouch(s, s', s.running.value);
    }
    forall ch | 0 <= ch < |s.chans| ensures Conserved(s'.log, ch, s'.chans[ch]) {
      assert Conserved(s.log, ch, s.chans[ch]);
    }
    forall k | 0 <= k < |s.cos| ensures Accounted(s', k) {
      assert TaleOf(s, k, did);
    }
  }

  lemma StillChoosing(s: State)
    requires Mid(s, []) && s.running.Some? && Of(s, s.running.value).pc.Choosing?
    ensures Inv(s)
  {
    forall k | 0 <= k < |s.cos| ensures Accounted(s, k) {
      assert TaleOf(s, k, []);
    }
  }

  // ---------- parking ----------

  /** The running coroutine `me` posted waiters and waits with nothing else changed. */
  ghost predicate Parks(s: State, s': State, me: Co) {
    && s.running == Some(me) && me < |s.cos| == |s'.cos| && s'.running == None && s'.rq == s.rq && s'.later == s.later
    && (forall k :: 0 <= k < |s.cos| && k != me ==> s'.cos[k] == s.cos[k])
    && s'.cos[me].status == Waiting && Posted(s', me) && CasesOk(s', me)
    && |s'.chans| == |s.chans|
    && forall i :: 0 <= i < |s.chans| ==> ParksAt(s, s', me, i)
  }

  ghost predicate ParksAt(s: State, s': State, me: Co, i: nat)
    requires i < |s.chans| == |s'.chans|
  {
    var c, c' := s.chans[i], s'.chans[i];
    && Tidy(c') && c'.closed == c.closed
    && (forall x :: x in c'.w ==> x in c.w || (x.co == Some(me) && WriterOk(s', i, x)))
    && (forall x :: x in c'.r ==> x in c.r || (x.co == me && ReaderOk(s', i, x)))
    && (forall x :: x in c.w ==> x in c'.w) && (forall x :: x in c.r ==> x in c'.r)
  }

  lemma ParksNodes(s: State, s': State, me: Co, i: nat)
    requires Net(s) && Parks(s, s', me) && i < |s.chans|
    ensures NodesOk(s', i)
  {
    assert NodesOk(s, i) && ParksAt(s, s', me, i) && Placed(s, me);
    forall x | x in s'.chans[i].w ensures WriterOk(s', i, x) {
      if x in s.chans[i].w { assert WriterOk(s, i, x); }
    }
    forall x | x in s'.chans[i].r ensures ReaderOk(s', i, x) {
      if x in s.chans[i].r { assert ReaderOk(s, i, x); }
    }
  }

  lemma ParksPlaced(s: State, s': State, me: Co, k: Co)
    requires Net(s) && Parks(s, s', me) && k < |s.cos|
    ensures Placed(s', k) && CasesOk(s', k)
  {
    assert Placed(s, k) && CasesOk(s, k);
    if k != me && Of(s, k).status.Waiting? {
      match Of(s, k).pc {
        case PushWait(ch, _) => assert ParksAt(s, s', me, ch);
        case PopWait(ch, _) => assert ParksAt(s, s', me, ch);
        case Parked(cases) =>
          forall x | x in cases ensures CasePosted(s', k, x) {
            assert CasePosted(s, k, x) && ParksAt(s, s', me, x.ch);
          }
        case _ =>
      }
    }
    if k != me && Of(s, k).status.Ready? && Of(s, k).pc.PopWait? && Of(s, k).pc.got.None? {
      assert ParksAt(s, s', me, Of(s, k).pc.ch);
    }
  }

  lemma ParksNet(s: State, s': State, me: Co)
    requires Net(s) && Parks(s, s', me)
    ensures Net(s')
  {
    assert Placed(s, me);
    forall i | 0 <= i < |s.chans| ensures NodesOk(s', i) { ParksNodes(s, s', me, i); }
    forall i | 0 <= i < |s.chans| ensures Tidy(s'.chans[i]) { assert ParksAt(s, s', me, i); }
    forall k | 0 <= k < |s.cos| ensures Placed(s', k) && CasesOk(s', k) { ParksPlaced(s, s', me, k); }
  }

  lemma NewWriter(s: State, ch: nat, x: Writer)
    requires Net(s) && ch < |s.chans| && !s.chans[ch].closed && (x.co.Some? ==> Of(s, x.co.value).status.Running?)
    ensures Tidy(s.chans[ch].(w := [x] + s.chans[ch].w))
  {
    var c := s.chans[ch];
    assert Tidy(c) && NodesOk(s, ch);
    assert ([x] + c.w)[1..] == c.w;
    forall y | y in c.w ensures x.co.Some? ==> y.co != x.co { assert WriterOk(s, ch, y); }
  }

  lemma NewReader(s: State, ch: nat, x: Reader)
    requires Net(s) && ch < |s.chans| && !s.chans[ch].closed && Of(s, x.co).status.Running?
    ensures Tidy(s.chans[ch].(r := [x] + s.chans[ch].r))
  {
    var c := s.chans[ch];
    assert Tidy(c) && NodesOk(s, ch);
    assert ([x] + c.r)[1..] == c.r;
    forall y | y in c.r ensures y.co != x.co { assert ReaderOk(s, ch, y); }
  }

  /** The running coroutine waits in a push. */
  lemma ParkPushNet(s: State, me: Co, ch: nat, v: Value)
    requires Net(s) && s.running == Some(me) && ch < |s.chans| && !s.chans[ch].closed
    ensures Net(ParkedPush(s, ch, v))
  {
    var s' := ParkedPush(s, ch, v);
    assert Placed(s, me);
    NewWriter(s, ch, Writer(s.running, v, false));
    forall i | 0 <= i < |s.chans| ensures ParksAt(s, s', me, i) {
      assert Tidy(s.chans[i]);
    }
    ParksNet(s, s', me);
  }

  lemma ParkPushInv(s: State, me: Co, ch: nat, v: Value)
    requires Mid(s, []) && s.running == Some(me) && ch < |s.chans| && !s.chans[ch].closed
    ensures Inv(ParkedPush(s, ch, v))
  {
    var s', e := ParkedPush(s, ch, v), Event(s.running, true, ch, v);
    ParkPushNet(s, me, ch, v);
    WaitingBook(s, s', ch, Writer(s.running, v, false));
    LogStep(s.log, e);
    forall k | 0 <= k < |s.cos| ensures Accounted(s', k) { assert TaleOf(s, k, []); }
  }

  /** It waits in a pop. */
  lemma ParkPopNet(s: State, me: Co, ch: nat)
    requires Net(s) && s.running == Some(me) && ch < |s.chans| && !s.chans[ch].closed
    ensures Net(ParkedPop(s, me, ch))
  {
    var s' := ParkedPop(s, me, ch);
    assert Placed(s, me);
    NewReader(s, ch, Reader(me, false));
    forall i | 0 <= i < |s.chans| ensures ParksAt(s, s', me, i) {
      assert Tidy(s.chans[i]);
    }
    ParksNet(s, s', me);
  }

  /** One more reader changes no account. */
  lemma ParkPopBook(s: State, s': State, ch: nat, x: Reader)
    requires Book(s) && s'.log == s.log && ch < |s.chans| && s'.chans == s.chans[ch := s.chans[ch].(r := [x] + s.chans[ch].r)]
    ensures Book(s')
  {
    forall i | 0 <= i < |s.chans| ensures Conserved(s'.log, i, s'.chans[i]) { assert Conserved(s.log, i, s.chans[i]); }
  }

  lemma ParkPopTale(s: State, me: Co, ch: nat, k: Co)
    requires Net(s) && s.running == Some(me) && ch < |s.chans| && k < |s.cos| && TaleOf(s, k, [])
    ensures Accounted(ParkedPop(s, me, ch), k)
  {
    assert Placed(s, me);
  }

  lemma ParkPopInv(s: State, me: Co, ch: nat)
    requires Mid(s, []) && s.running == Some(me) && ch < |s.chans| && !s.chans[ch].closed
    ensures Inv(ParkedPop(s, me, ch))
  {
    ParkPopNet(s, me, ch);
    ParkPopBook(s, ParkedPop(s, me, ch), ch, Reader(me, false));
    forall k | 0 <= k < |s.cos| ensures Accounted(ParkedPop(s, me, ch), k) {
      assert TaleOf(s, k, []);
      ParkPopTale(s, me, ch, k);
    }
  }

  /** A value is left behind that nobody waits with. */
  lemma LeaveValueNet(s: State, ch: nat, v: Value)
    requires Net(s) && ch < |s.chans| && !s.chans[ch].closed
    ensures Net(LeftBehind(s, ch, v))
  {
    NewWriter(s, ch, Writer(None, v, false));
    WokeNet(s, LeftBehind(s, ch, v), ch, []);
  }

  /** One more blocked writer that stands for an accepted value. */
  lemma WaitingBook(s: State, s': State, ch: nat, x: Writer)
    requires Book(s) && ch < |s.chans| && !s.chans[ch].closed && !x.select
    requires s'.chans == s.chans[ch := s.chans[ch].(w := [x] + s.chans[ch].w)]
    requires s'.log == s.log + [Event(s.running, true, ch, x.ele)]
    ensures Book(s')
  {
    AddHeld(s.chans[ch], x);
    OneEvent(s.log, Event(s.running, true, ch, x.ele));
    BookMoved(s, s', ch, Some(x.ele), None);
  }

  lemma LeaveValueBook(s: State, ch: nat, v: Value)
    requires Book(s) && ch < |s.chans| && !s.chans[ch].closed
    ensures Book(LeftBehind(s, ch, v))
  {
    WaitingBook(s, LeftBehind(s, ch, v), ch, Writer(None, v, false));
  }

  lemma LeaveValue(s: State, ch: nat, v: Value)
    requires Mid(s, []) && ch < |s.chans| && !s.chans[ch].closed
    ensures Mid(LeftBehind(s, ch, v), [Event(s.running, true, ch, v)])
  {
    var s', e := LeftBehind(s, ch, v), Event(s.running, true, ch, v);
    LeaveValueNet(s, ch, v);
    LeaveValueBook(s, ch, v);
    LogStep(s.log, e);
    var did := [e];
    forall k | 0 <= k < |s.cos| ensures TaleOf(s', k, did) { assert TaleOf(s, k, []); }
  }

  // ---------- the operations of a channel ----------

  lemma RefusedInv(s: State, result: Result)
    requires Inv(s) && Free(s) && (result.PushClosed? || result.PopNull? || result.PopFailed? || result.Closed?)
    ensures Inv(Ended(Begun(s), result))
  {
    BegunMid(s);
    EndedInv(Begun(s), [], result);
  }

  /** A write, or a read, at the start of an operation. */
  lemma BeginWrite(s: State, ch: nat, v: Value)
    requires Inv(s) && Free(s) && ch < |s.chans| && !s.chans[ch].closed && !s.stuck && !TryWrite(Begun(s), ch, v).0.stuck
    ensures var (t, done) := TryWrite(Begun(s), ch, v);
      && Mid(t, if done then [Event(s.running, true, ch, v)] else [])
      && t.running == s.running && ch < |t.chans| && !t.chans[ch].closed
  {
    BegunMid(s);
    WriteMid(Begun(s), ch, v);
  }

  lemma BeginRead(s: State, ch: nat)
    requires Inv(s) && Free(s) && ch < |s.chans| && !s.chans[ch].closed && !s.stuck && !TryRead(Begun(s), ch).0.stuck
    ensures var (t, done, value) := TryRead(Begun(s), ch);
      && Mid(t, if value.Some? then [Event(s.running, false, ch, value.value)] else []) && (done <==> value.Some?)
      && t.running == s.running && ch < |t.chans| && !t.chans[ch].closed
  {
    BegunMid(s);
    ReadMid(Begun(s), ch);
  }

  lemma AfterPushInv(t: State, done: bool, ch: nat, v: Value, blocked: bool)
    requires Mid(t, if done then [Event(t.running, true, ch, v)] else [])
    requires ch < |t.chans| && !t.chans[ch].closed && (blocked ==> t.running.Some?)
    ensures Inv(AfterPush(t, done, ch, v, blocked))
  {
    if done {
      EndedInv(t, [Event(t.running, true, ch, v)], PushDone(ch, v));
    } else if blocked {
      ParkPushInv(t, t.running.value, ch, v);
    } else {
      EndedInv(t, [], PushNotDone);
    }
  }

  lemma AfterPopInv(t: State, value: Option<Value>, ch: nat, blocked: bool)
    requires Mid(t, if value.Some? then [Event(t.running, false, ch, value.value)] else [])
    requires ch < |t.chans| && !t.chans[ch].closed && (blocked ==> t.running.Some?)
    ensures Inv(AfterPop(t, value, ch, blocked))
  {
    if value.Some? {
      EndedInv(t, [Event(t.running, false, ch, value.value)], PopDone(ch, value.value));
    } else if blocked {
      ParkPopInv(t, t.running.value, ch);
    } else {
      EndedInv(t, [], PopFailed);
    }
  }

  lemma AfterStuck(t: State, done: bool, value: Option<Value>, ch: nat, v: Value, blocked: bool)
    requires ch < |t.chans| && (blocked ==> t.running.Some?) && t.stuck
    ensures AfterPush(t, done, ch, v, blocked).stuck && AfterPop(t, value, ch, blocked).stuck
  {
  }

  lemma TryKeepsRunning(s: State, at: nat, v: Value)
    requires at < |s.chans|
    ensures TryWrite(s, at, v).0.running == s.running && TryRead(s, at).0.running == s.running
    ensures |TryWrite(s, at, v).0.chans| == |s.chans| && |TryRead(s, at).0.chans| == |s.chans|
  {
  }

  lemma PushInv(s: State, ch: nat, v: Value, blocked: bool)
    requires Inv(s) && Enabled(s, PushOp(ch, v, blocked)) && !PushStep(s, ch, v, blocked).stuck
    ensures Inv(PushStep(s, ch, v, blocked))
  {
    if s.chans[ch].closed {
      RefusedInv(s, PushClosed);
    } else {
      var (t, done) := TryWrite(Begun(s), ch, v);
      TryKeepsRunning(Begun(s), ch, v);
      if t.stuck { AfterStuck(t, done, None, ch, v, blocked); }
      BeginWrite(s, ch, v);
      AfterPushInv(t, done, ch, v, blocked);
    }
  }

  lemma PopInv(s: State, ch: nat, blocked: bool)
    requires Inv(s) && Enabled(s, PopOp(ch, blocked)) && !PopStep(s, ch, blocked).stuck
    ensures Inv(PopStep(s, ch, blocked))
  {
    if s.chans[ch].closed {
      RefusedInv(s, PopNull);
    } else {
      var (t, done, value) := TryRead(Begun(s), ch);
      TryKeepsRunning(Begun(s), ch, 0);
      if t.stuck { AfterStuck(t, done, value, ch, 0, blocked); }
      BeginRead(s, ch);
      AfterPopInv(t, value, ch, blocked);
    }
  }

  lemma AfterOfferInv(t: State, done: bool, ch: nat, v: Value)
    requires Mid(t, if done then [Event(t.running, true, ch, v)] else []) && ch < |t.chans| && !t.chans[ch].closed
    ensures Inv(Ended(if done then t else LeftBehind(t, ch, v), PushDone(ch, v)))
  {
    if !done { LeaveValue(t, ch, v); }
    EndedInv(if done then t else LeftBehind(t, ch, v), [Event(t.running, true, ch, v)], PushDone(ch, v));
  }

  lemma OfferInv(s: State, ch: nat, v: Value)
    requires Inv(s) && Enabled(s, OfferOp(ch, v)) && !OfferStep(s, ch, v).stuck
    ensures Inv(OfferStep(s, ch, v))
  {
    if s.chans[ch].closed {
      RefusedInv(s, PushClosed);
    } else {
      var (t, done) := TryWrite(Begun(s), ch, v);
      BeginWrite(s, ch, v);
      AfterOfferInv(t, done, ch, v);
    }
  }

  lemma GrabInv(s: State, ch: nat)
    requires Inv(s) && Enabled(s, GrabOp(ch)) && !GrabStep(s, ch).stuck
    ensures Inv(GrabStep(s, ch))
  {
    if s.chans[ch].closed {
      RefusedInv(s, PopFailed);
    } else {
      PopInv(s, ch, false);
    }
  }
}
