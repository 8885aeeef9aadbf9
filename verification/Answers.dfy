/** What the operations of module Scheduler return, and to whom values go, told by
    the channel as it is before the operation. */
module Answers {
  import opened Collections
  import opened ChannelSpec
  import opened Scheduler
  import opened SchedulerLaws
  import opened SchedulerSteps
  import opened SelectLaws
  import opened ClosingLaws
  import opened Runs
  import opened Waiters
  import opened WaitOrder

  /** A value finds a place at once: the first reader is in a pop, or nobody reads and
      the ring has room. */
  predicate Accepts(c: Channel) {
    !c.closed && if c.r != [] then !c.r[0].select else |c.ring| < c.cap
  }

  /** A value can be had at once. */
  predicate Gives(c: Channel) {
    !c.closed && if c.w != [] then !c.w[0].select else c.ring != []
  }

  function First(c: Channel): Value
    requires Gives(c)
  {
    if c.w != [] then c.w[0].ele else c.ring[0]
  }

  lemma WriteGoesIff(c: Channel, v: Value)
    requires !c.closed && |c.ring| <= c.cap
    ensures Write(c, v).done <==> Accepts(c)
    ensures Write(c, v).chan.w == c.w && Write(c, v).chan.closed == c.closed
  {
  }

  lemma ReadGoesIff(c: Channel)
    requires !c.closed && |c.ring| <= c.cap
    ensures Read(c).done <==> Gives(c)
    ensures Read(c).value == if Gives(c) then Some(First(c)) else None
    ensures Read(c).chan.r == c.r && Read(c).chan.closed == c.closed
  {
  }

  /** How an operation of the running coroutine `me` ended. */
  ghost predicate Returns(t: State, me: Co, result: Result) {
    t.running == Some(me) && me < |t.cos| && t.cos[me].status.Running? && t.cos[me].pc.User? && t.cos[me].result == result
  }

  ghost predicate Waits(t: State, me: Co, pc: Pc) {
    t.running == None && me < |t.cos| && t.cos[me].status.Waiting? && t.cos[me].pc == pc
  }

  // ---------- push and pop ----------

  lemma AfterPushReturns(t: State, me: Co, done: bool, ch: nat, v: Value, blocked: bool)
    requires Net(t) && t.running == Some(me) && ch < |t.chans|
    ensures var u := AfterPush(t, done, ch, v, blocked);
      if done then Returns(u, me, PushDone(ch, v))
      else if blocked then Waits(u, me, PushWait(ch, v)) && u.chans[ch].w == [Writer(Some(me), v, false)] + t.chans[ch].w
      else Returns(u, me, PushNotDone)
  {
    StaysRunning(t);
  }

  lemma AfterPopReturns(t: State, me: Co, value: Option<Value>, ch: nat, blocked: bool)
    requires Net(t) && t.running == Some(me) && ch < |t.chans|
    ensures var u := AfterPop(t, value, ch, blocked);
      if value.Some? then Returns(u, me, PopDone(ch, value.value))
      else if blocked then Waits(u, me, PopWait(ch, None)) && u.chans[ch].r == [Reader(me, false)] + t.chans[ch].r
      else Returns(u, me, PopFailed)
  {
    StaysRunning(t);
  }

  lemma Refused(s: State, me: Co, result: Result)
    requires Net(s) && s.running == Some(me)
    ensures Returns(Ended(Begun(s), result), me, result)
  {
    StaysRunning(s);
  }

  lemma PushReturns(s: State, me: Co, ch: nat, v: Value, blocked: bool)
    requires Inv(s) && Enabled(s, PushOp(ch, v, blocked)) && s.running == Some(me) && !PushStep(s, ch, v, blocked).stuck
    ensures var c, t := s.chans[ch], PushStep(s, ch, v, blocked);
      if c.closed then Returns(t, me, PushClosed)
      else if Accepts(c) then Returns(t, me, PushDone(ch, v))
      else if blocked then Waits(t, me, PushWait(ch, v)) && ch < |t.chans| && t.chans[ch].w == [Writer(Some(me), v, false)] + c.w
      else Returns(t, me, PushNotDone)
  {
    if s.chans[ch].closed {
      Refused(s, me, PushClosed);
    } else {
      var (t, done) := TryWrite(Begun(s), ch, v);
      WriteShape(Begun(s), ch, v);
      TryKeepsRunning(Begun(s), ch, v);
      if t.stuck { AfterStuck(t, done, None, ch, v, blocked); }
      BeginWrite(s, ch, v);
      assert Tidy(s.chans[ch]);
      WriteGoesIff(s.chans[ch], v);
      AfterPushReturns(t, me, done, ch, v, blocked);
    }
  }

  lemma PopReturns(s: State, me: Co, ch: nat, blocked: bool)
    requires Inv(s) && Enabled(s, PopOp(ch, blocked)) && s.running == Some(me) && !PopStep(s, ch, blocked).stuck
    ensures var c, t := s.chans[ch], PopStep(s, ch, blocked);
      if c.closed then Returns(t, me, PopNull)
      else if Gives(c) then Returns(t, me, PopDone(ch, First(c)))
      else if blocked then Waits(t, me, PopWait(ch, None)) && ch < |t.chans| && t.chans[ch].r == [Reader(me, false)] + c.r
      else Returns(t, me, PopFailed)
  {
    if s.chans[ch].closed {
      Refused(s, me, PopNull);
    } else {
      var (t, done, value) := TryRead(Begun(s), ch);
      ReadShape(Begun(s), ch);
      TryKeepsRunning(Begun(s), ch, 0);
      if t.stuck { AfterStuck(t, done, value, ch, 0, blocked); }
      BeginRead(s, ch);
      assert Tidy(s.chans[ch]);
      ReadGoesIff(s.chans[ch]);
      AfterPopReturns(t, me, value, ch, blocked);
    }
  }

  lemma AfterOfferReturns(t: State, done: bool, ch: nat, v: Value)
    requires Net(t) && ch < |t.chans|
    ensures var u := Ended(if done then t else LeftBehind(t, ch, v), PushDone(ch, v));
      && (t.running.Some? ==> Returns(u, t.running.value, PushDone(ch, v)))
      && |u.chans| == |t.chans| && u.chans[ch].w == if done then t.chans[ch].w else [Writer(None, v, false)] + t.chans[ch].w
  {
    StaysRunning(t);
  }

  lemma OfferReturns(s: State, ch: nat, v: Value)
    requires Inv(s) && Enabled(s, OfferOp(ch, v)) && !OfferStep(s, ch, v).stuck
    ensures var c, t := s.chans[ch], OfferStep(s, ch, v);
      && (s.running.Some? ==> Returns(t, s.running.value, if c.closed then PushClosed else PushDone(ch, v)))
      && |t.chans| == |s.chans| && t.chans[ch].w == if c.closed || Accepts(c) then c.w else [Writer(None, v, false)] + c.w
  {
    if s.chans[ch].closed {
      if s.running.Some? { Refused(s, s.running.value, PushClosed); }
    } else {
      var (t, done) := TryWrite(Begun(s), ch, v);
      WriteShape(Begun(s), ch, v);
      TryKeepsRunning(Begun(s), ch, v);
      BeginWrite(s, ch, v);
      assert Tidy(s.chans[ch]);
      WriteGoesIff(s.chans[ch], v);
      AfterOfferReturns(t, done, ch, v);
    }
  }

  lemma GrabReturns(s: State, me: Co, ch: nat)
    requires Inv(s) && Enabled(s, GrabOp(ch)) && s.running == Some(me) && !GrabStep(s, ch).stuck
    ensures Returns(GrabStep(s, ch), me, if Gives(s.chans[ch]) then PopDone(ch, First(s.chans[ch])) else PopFailed)
  {
    if s.chans[ch].closed { Refused(s, me, PopFailed); } else { PopReturns(s, me, ch, false); }
  }

  lemma CloseReturns(s: State, me: Co, ch: nat)
    requires Inv(s) && Enabled(s, CloseOp(ch)) && s.running == Some(me) && !CloseStep(s, ch).stuck
    ensures Returns(CloseStep(s, ch), me, Closed)
  {
    if s.chans[ch].closed {
      Refused(s, me, Closed);
    } else {
      BegunMid(s);
      CloseMid(Begun(s), ch);
      StaysRunning(Closing(Begun(s), ch));
    }
  }

  /** Where a coroutine goes on when it is resumed: a push has happened, a pop has what
      was stored for it, or nothing if its channel was closed. */
  lemma ResumedReturns(s: State)
    requires Inv(s) && Enabled(s, Resume)
    ensures var k, t := s.rq[0], ResumeStep(s);
      k < |s.cos| && match s.cos[k].pc
      case PushWait(ch, v) => Returns(t, k, PushDone(ch, v))
      case PopWait(ch, got) =>
        if got.Some? then Returns(t, k, PopDone(ch, got.value)) else Returns(t, k, PopNull) && ch < |s.chans| && s.chans[ch].closed
      case Parked(cases) => t.running == Some(k) && t.cos[k].pc == Choosing(cases, true)
      case _ => Returns(t, k, s.cos[k].result)
  {
    var k := s.rq[0];
    assert k in s.rq && Placed(s, k);
  }

  // ---------- to whom the values go ----------

  /** The coroutine was woken last, and nobody but the running one changed besides. */
  ghost predicate WokenAlone(s: State, t: State, k: Co) {
    && k < |s.cos| == |t.cos| && s.cos[k].status.Waiting? && t.cos[k].status.Ready? && t.rq == s.rq + [k]
    && forall j :: 0 <= j < |s.cos| && j != k && s.running != Some(j) ==> t.cos[j] == s.cos[j]
  }

  lemma DeliverGets(s: State, ch: nat, v: Value)
    requires Net(s) && ch < |s.chans| && !s.chans[ch].closed && s.chans[ch].r != [] && !s.chans[ch].r[0].select && !s.stuck
    ensures var t, k := TryWrite(s, ch, v).0, s.chans[ch].r[0].co;
      && !t.stuck && k < |s.cos| && s.running != Some(k) && k < |t.cos| && t.cos[k].pc == PopWait(ch, Some(v))
  {
    HeadReader(s, ch);
  }

  /** A push delivers to the first reader in the list, if that is in a pop. */
  lemma FirstReceives(s: State, a: Action, ch: nat, v: Value)
    requires Inv(s) && Enabled(s, a) && (a == OfferOp(ch, v) || (a.PushOp? && a.ch == ch && a.v == v))
    requires !s.chans[ch].closed && s.chans[ch].r != [] && !s.chans[ch].r[0].select
    ensures var t, k := Do(s, a), s.chans[ch].r[0].co;
      && !t.stuck && WokenAlone(s, t, k) && t.cos[k].pc == PopWait(ch, Some(v))
      && ch < |t.chans| && t.chans[ch] == s.chans[ch].(r := s.chans[ch].r[1..])
  {
    var b, k := Begun(s), s.chans[ch].r[0].co;
    var t := Do(s, a);
    BegunMid(s);
    DeliverGets(b, ch, v);
    WrittenTo(b, ch, v);
    PushDelivered(s, a, ch, v);
    EndedKeeps(TryWrite(b, ch, v).0, PushDone(ch, v), k);
    if a.PushOp? { PushAttempted(s, ch, v, a.blocked); } else { OfferAttempted(s, ch, v); }
    AttemptedAlone(s, t, ch, k);
  }

  lemma WrittenTo(b: State, ch: nat, v: Value)
    requires ch < |b.chans| && !b.chans[ch].closed && b.chans[ch].r != [] && !b.chans[ch].r[0].select
    ensures var (w, done) := TryWrite(b, ch, v);
      done && w.running == b.running && ch < |w.chans| && w.chans[ch] == b.chans[ch].(r := b.chans[ch].r[1..])
  {
    WriteShape(b, ch, v);
    TryKeepsRunning(b, ch, v);
  }

  lemma EndedKeeps(w: State, result: Result, k: Co)
    requires w.running != Some(k)
    ensures var t := Ended(w, result); t.chans == w.chans && t.stuck == w.stuck && t.rq == w.rq && Of(t, k) == Of(w, k) && |t.cos| == |w.cos|
  {
  }

  lemma AttemptedAlone(s: State, t: State, ch: nat, k: Co)
    requires Net(s) && Attempted(s, t, ch, [k])
    ensures WokenAlone(s, t, k)
  {
    assert k in [k];
  }

  lemma PushDelivered(s: State, a: Action, ch: nat, v: Value)
    requires Enabled(s, a) && (a == OfferOp(ch, v) || (a.PushOp? && a.ch == ch && a.v == v)) && !s.chans[ch].closed
    requires TryWrite(Begun(s), ch, v).1
    ensures Do(s, a) == Ended(TryWrite(Begun(s), ch, v).0, PushDone(ch, v))
  {
  }

  /** A coroutine that has just begun to wait in a pop is the one that the next value
      goes to. */
  lemma ParkedReceives(s: State, run: seq<Action>, s': State, k: Co, ch: nat, v: Value)
    requires Init(s) && Reaches(s, run, s') && Enabled(s', PopOp(ch, true)) && s'.running == Some(k)
    requires !s'.chans[ch].closed && !Gives(s'.chans[ch]) && !PopStep(s', ch, true).stuck
    ensures var t := PopStep(s', ch, true);
      && Enabled(t, OfferOp(ch, v))
      && var u := Do(t, OfferOp(ch, v)); !u.stuck && WokenAlone(t, u, k) && u.cos[k].pc == PopWait(ch, Some(v))
  {
    var t := PopStep(s', ch, true);
    InitInv(s);
    RunInv(s, run, s');
    PopReturns(s', k, ch, true);
    PopInv(s', ch, true);
    PopLists(s', ch, true);
    PopStaysOpen(s', ch);
    FirstReceives(t, OfferOp(ch, v), ch, v);
  }

  lemma PopStaysOpen(s: State, ch: nat)
    requires Inv(s) && Enabled(s, PopOp(ch, true)) && !s.chans[ch].closed && !PopStep(s, ch, true).stuck
    ensures ch < |PopStep(s, ch, true).chans| && !PopStep(s, ch, true).chans[ch].closed
  {
    var (t, _, value) := TryRead(Begun(s), ch);
    TryKeepsRunning(Begun(s), ch, 0);
    ReadShape(Begun(s), ch);
    AfterPopLists(t, value, ch, true);
  }

  /** A pop takes from the first writer in the list, if that is not a select, and wakes
      the coroutine that waits with the value, if any does. */
  lemma FirstGives(s: State, a: Action, ch: nat)
    requires Inv(s) && Enabled(s, a) && (a == GrabOp(ch) || (a.PopOp? && a.ch == ch))
    requires !s.chans[ch].closed && s.chans[ch].w != [] && !s.chans[ch].w[0].select
    ensures var t, x := Do(s, a), s.chans[ch].w[0];
      && !t.stuck && (if x.co.Some? then WokenAlone(s, t, x.co.value) else t.rq == s.rq)
      && ch < |t.chans| && t.chans[ch] == s.chans[ch].(w := s.chans[ch].w[1..])
      && (s.running.Some? ==> Returns(t, s.running.value, PopDone(ch, x.ele)))
  {
    var b, x, t := Begun(s), s.chans[ch].w[0], Do(s, a);
    BegunMid(s);
    ReadAt(b, ch);
    PopDelivered(s, a, ch);
    EndedKeeps(TryRead(b, ch).0, PopDone(ch, x.ele), |s.cos|);
    PopAttempted(s, ch, a.PopOp? && a.blocked);
    if x.co.Some? { AttemptedAlone(s, t, ch, x.co.value); } else { assert s.rq + [] == s.rq; }
    if s.running.Some? { PopReturns(s, s.running.value, ch, a.PopOp? && a.blocked); }
  }

  lemma ReadAt(b: State, ch: nat)
    requires Net(b) && ch < |b.chans| && !b.chans[ch].closed && b.chans[ch].w != [] && !b.chans[ch].w[0].select && !b.stuck
    ensures var (w, _, value) := TryRead(b, ch); var x := b.chans[ch].w[0];
      && !w.stuck && value == Some(x.ele) && w.running == b.running && |w.cos| == |b.cos|
      && ch < |w.chans| && w.chans[ch] == b.chans[ch].(w := b.chans[ch].w[1..])
      && (b.running.Some? ==> b.running.value < |b.cos|)
  {
    HeadWriter(b, ch);
    ReadShape(b, ch);
    TryKeepsRunning(b, ch, 0);
  }

  lemma PopDelivered(s: State, a: Action, ch: nat)
    requires Enabled(s, a) && (a == GrabOp(ch) || (a.PopOp? && a.ch == ch)) && !s.chans[ch].closed
    requires TryRead(Begun(s), ch).2.Some?
    ensures var (t, _, value) := TryRead(Begun(s), ch); Do(s, a) == PopStep(s, ch, a.PopOp? && a.blocked) == Ended(t, PopDone(ch, value.value))
  {
  }

  /** A push or a pop that meets a select first only wakes it: the select takes nothing
      and gives nothing, and is off this list. */
  lemma SelectOnlyWoken(s: State, a: Action, ch: nat)
    requires Inv(s) && Enabled(s, a) && !Do(s, a).stuck && ch < |s.chans| && !s.chans[ch].closed
    requires (a.PushOp? || a.OfferOp? || a.PopOp? || a.GrabOp?) && a.ch == ch
    requires if a.PushOp? || a.OfferOp? then s.chans[ch].r != [] && s.chans[ch].r[0].select
             else s.chans[ch].w != [] && s.chans[ch].w[0].select
    ensures var t, k := Do(s, a), if a.PushOp? || a.OfferOp? then Some(s.chans[ch].r[0].co) else s.chans[ch].w[0].co;
      k.Some? && WokenAlone(s, t, k.value) && t.cos[k.value].pc == s.cos[k.value].pc && s.cos[k.value].pc.Parked?
      && ch < |t.chans| && GoneFrom(t.chans[ch], k.value)
  {
    HeadReader(s, ch);
    HeadWriter(s, ch);
    match a {
      case PushOp(_, v, blocked) => PushAttempted(s, ch, v, blocked);
      case OfferOp(_, v) => OfferAttempted(s, ch, v);
      case PopOp(_, blocked) => PopAttempted(s, ch, blocked);
      case GrabOp(_) => PopAttempted(s, ch, false);
    }
    SelectAlone(s, Do(s, a), ch, if a.PushOp? || a.OfferOp? then s.chans[ch].r[0].co else s.chans[ch].w[0].co.value);
  }

  lemma SelectAlone(s: State, t: State, ch: nat, k: Co)
    requires Net(s) && Attempted(s, t, ch, [k]) && k < |s.cos| && s.cos[k].pc.Parked?
    ensures WokenAlone(s, t, k) && t.cos[k].pc == s.cos[k].pc && ch < |t.chans| && GoneFrom(t.chans[ch], k)
  {
    assert k in [k];
  }
}
