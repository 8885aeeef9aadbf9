/** Runs of module Scheduler in which nobody selects. */
module SelectFreeRuns {
  import opened Collections
  import opened ChannelSpec
  import opened Scheduler
  import opened SchedulerLaws
  import opened SchedulerSteps
  import opened ClosingLaws
  import opened Runs

  /** No coroutine is inside a select. */
  ghost predicate Plain(s: State) {
    forall k :: 0 <= k < |s.cos| ==> !Of(s, k).pc.Choosing? && !Of(s, k).pc.Parked?
  }

  /** Blocked readers and blocked writers exclude each other, on every channel. */
  ghost predicate Apart(s: State) {
    forall ch :: 0 <= ch < |s.chans| ==> Exclusive(s.chans[ch])
  }

  lemma PlainChannels(s: State, ch: nat)
    requires Net(s) && Plain(s) && ch < |s.chans|
    ensures SelectFree(s.chans[ch])
  {
    assert NodesOk(s, ch);
    forall x | x in s.chans[ch].w ensures !x.select { assert WriterOk(s, ch, x); }
    forall x | x in s.chans[ch].r ensures !x.select { assert ReaderOk(s, ch, x); }
  }

  /** Waking changes no coroutine's place in its code but for what it received. */
  lemma WokePlain(s: State, s': State, ch: nat, ks: seq<Co>)
    requires Plain(s) && Woke(s, s', ch, ks)
    ensures Plain(s')
  {
    forall k | 0 <= k < |s'.cos| ensures !Of(s', k).pc.Choosing? && !Of(s', k).pc.Parked? {
      assert !Of(s, k).pc.Choosing?;
    }
  }

  /** A write in the middle of an operation. */
  lemma PlainWrite(s: State, ch: nat, v: Value)
    requires Net(s) && Plain(s) && Apart(s) && ch < |s.chans| && !s.chans[ch].closed && !s.stuck
    ensures var (t, done) := TryWrite(s, ch, v);
      && !t.stuck && Plain(t) && Apart(t) && Same(s, t) && (!done ==> WBlocked(t.chans[ch]) && t.chans == s.chans && t.log == s.log)
  {
    var (t, done) := TryWrite(s, ch, v);
    PlainChannels(s, ch);
    assert Exclusive(s.chans[ch]);
    WriteSpinsIff(s, ch, v);
    assert s.chans[ch].r != [] ==> s.chans[ch].r[0] in s.chans[ch].r;
    WriteAtEnd(s.chans[ch], v);
    WriteShape(s, ch, v);
    WriteWoke(s, ch, v);
    WokePlain(s, t, ch, WriteWakes(s.chans[ch]));
    WokeSame(s, t, ch, WriteWakes(s.chans[ch]));
  }

  lemma PlainRead(s: State, ch: nat)
    requires Net(s) && Plain(s) && Apart(s) && ch < |s.chans| && !s.chans[ch].closed && !s.stuck
    ensures var (t, done, value) := TryRead(s, ch);
      && !t.stuck && Plain(t) && Apart(t) && Same(s, t)
      && (done <==> value.Some?) && (!done ==> RBlocked(t.chans[ch]) && t.chans == s.chans && t.log == s.log)
  {
    var (t, done, value) := TryRead(s, ch);
    PlainChannels(s, ch);
    assert Exclusive(s.chans[ch]);
    ReadSpinsIff(s, ch);
    assert s.chans[ch].w != [] ==> s.chans[ch].w[0] in s.chans[ch].w;
    ReadShape(s, ch);
    ReadWoke(s, ch);
    WokePlain(s, t, ch, ReadWakes(s.chans[ch]));
    WokeSame(s, t, ch, ReadWakes(s.chans[ch]));
  }

  ghost predicate Good(s: State) {
    Inv(s) && !s.stuck && Plain(s) && Apart(s)
  }

  lemma EndedPlain(s: State, result: Result)
    requires Plain(s) && Apart(s)
    ensures Plain(Ended(s, result)) && Apart(Ended(s, result)) && Plain(Begun(s)) && Apart(Begun(s))
  {
    forall k | 0 <= k < |s.cos|
      ensures !Of(Ended(s, result), k).pc.Choosing? && !Of(Ended(s, result), k).pc.Parked?
      ensures !Of(Begun(s), k).pc.Choosing? && !Of(Begun(s), k).pc.Parked?
    {
      assert !Of(s, k).pc.Choosing?;
    }
  }

  lemma AfterPushPlain(t: State, done: bool, ch: nat, v: Value, blocked: bool)
    requires Plain(t) && Apart(t) && !t.stuck && ch < |t.chans| && (!done ==> WBlocked(t.chans[ch])) && (blocked ==> t.running.Some?)
    requires t.running.Some? ==> Of(t, t.running.value).status.Running?
    ensures Plain(AfterPush(t, done, ch, v, blocked)) && Apart(AfterPush(t, done, ch, v, blocked)) && !AfterPush(t, done, ch, v, blocked).stuck
    ensures var u := Ended(if done then t else LeftBehind(t, ch, v), PushDone(ch, v)); Plain(u) && Apart(u) && !u.stuck
  {
    assert Exclusive(t.chans[ch]);
    EndedPlain(t, if done then PushDone(ch, v) else PushNotDone);
    if !done {
      var s' := ParkedPush(t, ch, v);
      forall k | 0 <= k < |t.cos| && blocked ensures !Of(s', k).pc.Choosing? && !Of(s', k).pc.Parked? { assert !Of(t, k).pc.Choosing?; }
      assert Plain(LeftBehind(t, ch, v)) by {
        forall k | 0 <= k < |t.cos| ensures !Of(LeftBehind(t, ch, v), k).pc.Choosing? && !Of(LeftBehind(t, ch, v), k).pc.Parked? {
          assert !Of(t, k).pc.Choosing?;
        }
      }
      EndedPlain(LeftBehind(t, ch, v), PushDone(ch, v));
    }
  }

  lemma AfterPopPlain(t: State, value: Option<Value>, ch: nat, blocked: bool)
    requires Plain(t) && Apart(t) && !t.stuck && ch < |t.chans| && (value.None? ==> RBlocked(t.chans[ch])) && (blocked ==> t.running.Some?)
    requires t.running.Some? ==> Of(t, t.running.value).status.Running?
    ensures Plain(AfterPop(t, value, ch, blocked)) && Apart(AfterPop(t, value, ch, blocked)) && !AfterPop(t, value, ch, blocked).stuck
  {
    assert Exclusive(t.chans[ch]);
    EndedPlain(t, if value.Some? then PopDone(ch, value.value) else PopFailed);
    if value.None? && blocked {
      var s' := ParkedPop(t, t.running.value, ch);
      forall k | 0 <= k < |t.cos| ensures !Of(s', k).pc.Choosing? && !Of(s', k).pc.Parked? { assert !Of(t, k).pc.Choosing?; }
    }
  }

  lemma PushPlain(s: State, ch: nat, v: Value, blocked: bool)
    requires Good(s) && Free(s) && ch < |s.chans| && (blocked ==> s.running.Some?)
    ensures var u := PushStep(s, ch, v, blocked); Plain(u) && Apart(u) && !u.stuck
    ensures var u := OfferStep(s, ch, v); Plain(u) && Apart(u) && !u.stuck
  {
    EndedPlain(s, PushClosed);
    EndedPlain(Begun(s), PushClosed);
    if !s.chans[ch].closed {
      BegunMid(s);
      PlainWrite(Begun(s), ch, v);
      var (t, done) := TryWrite(Begun(s), ch, v);
      AfterPushPlain(t, done, ch, v, blocked);
    }
  }

  lemma PopPlain(s: State, ch: nat, blocked: bool)
    requires Good(s) && Free(s) && ch < |s.chans| && (blocked ==> s.running.Some?)
    ensures var u := PopStep(s, ch, blocked); Plain(u) && Apart(u) && !u.stuck
    ensures var u := GrabStep(s, ch); Plain(u) && Apart(u) && !u.stuck
  {
    EndedPlain(s, PopNull);
    EndedPlain(Begun(s), PopNull);
    EndedPlain(Begun(s), PopFailed);
    if !s.chans[ch].closed {
      BegunMid(s);
      PlainRead(Begun(s), ch);
      var (t, done, value) := TryRead(Begun(s), ch);
      AfterPopPlain(t, value, ch, blocked);
      AfterPopPlain(t, value, ch, false);
    }
  }

  lemma SleepersWait(s: State, ch: nat, k: Co)
    requires Net(s) && Plain(s) && ch < |s.chans| && k in Sleepers(s.chans[ch])
    ensures k < |s.cos| && s.cos[k].status.Waiting?
  {
    SleeperIs(s, ch, k);
    SleeperWaits(s, ch, k);
  }

  lemma ClosingPlain(s: State, ch: nat)
    requires Net(s) && Plain(s) && Apart(s) && !s.stuck && ch < |s.chans| && !s.chans[ch].closed
    ensures var t := Closing(s, ch); !t.stuck && Plain(t) && Apart(t)
  {
    forall k | k in Sleepers(s.chans[ch]) ensures Of(s, k).status.Waiting? { SleepersWait(s, ch, k); }
    CloseSpinsIff(s, ch);
    CloseWoke(s, ch);
    WokePlain(s, Closing(s, ch), ch, Sleepers(s.chans[ch]));
    CloseKeepsPc(s, ch);
  }

  lemma ClosePlain(s: State, ch: nat)
    requires Good(s) && Free(s) && ch < |s.chans|
    ensures var u := CloseStep(s, ch); Plain(u) && Apart(u) && !u.stuck
  {
    EndedPlain(s, Closed);
    var t := if s.chans[ch].closed then Begun(s) else Closing(Begun(s), ch);
    assert Plain(t) && Apart(t) && !t.stuck by {
      if !s.chans[ch].closed {
        BegunMid(s);
        ClosingPlain(Begun(s), ch);
      }
    }
    EndedPlain(t, Closed);
  }

  lemma ResumePlain(s: State)
    requires Good(s) && Enabled(s, Resume)
    ensures var u := ResumeStep(s); Plain(u) && Apart(u) && !u.stuck
  {
    var u, k := ResumeStep(s), s.rq[0];
    assert k in s.rq && Placed(s, k) && !Of(s, k).pc.Parked?;
    assert u.chans == s.chans;
    forall j | 0 <= j < |s.cos| ensures !Of(u, j).pc.Choosing? && !Of(u, j).pc.Parked? { assert !Of(s, j).pc.Choosing?; }
  }

  lemma OtherPlain(s: State, a: Action)
    requires Good(s) && Enabled(s, a) && (a.YieldOp? || a.FinishOp? || a.JoinOp? || a.EndPass?)
    ensures var u := Do(s, a); Plain(u) && Apart(u) && !u.stuck
  {
    var u := Do(s, a);
    forall j | 0 <= j < |s.cos| ensures !Of(u, j).pc.Choosing? && !Of(u, j).pc.Parked? { assert !Of(s, j).pc.Choosing?; }
  }

  lemma StepGood(s: State, a: Action)
    requires Good(s) && Enabled(s, a) && !a.SelectOp? && !a.PollOp?
    ensures Good(Do(s, a))
  {
    match a {
      case PushOp(ch, v, blocked) => PushPlain(s, ch, v, blocked);
      case PopOp(ch, blocked) => PopPlain(s, ch, blocked);
      case OfferOp(ch, v) => PushPlain(s, ch, v, false);
      case GrabOp(ch) => PopPlain(s, ch, false);
      case CloseOp(ch) => ClosePlain(s, ch);
      case Choose => assert false;
      case Resume => ResumePlain(s);
      case _ => OtherPlain(s, a);
    }
    StepInv(s, a);
  }

  ghost predicate NoSelect(run: seq<Action>) {
    forall i :: 0 <= i < |run| ==> !run[i].SelectOp? && !run[i].PollOp?
  }

  lemma {:induction false} RunGood(s: State, run: seq<Action>, s': State)
    requires Good(s) && Reaches(s, run, s') && NoSelect(run)
    ensures Good(s')
    decreases |run|
  {
    if run != [] {
      StepGood(s, run[0]);
      RunGood(Do(s, run[0]), run[1..], s');
    }
  }

  lemma InitGood(s: State)
    requires Init(s)
    ensures Good(s)
  {
    InitInv(s);
    forall ch | 0 <= ch < |s.chans| ensures Exclusive(s.chans[ch]) {
      assert s.chans[ch] == Channel(s.chans[ch].cap, [], [], [], false);
    }
    forall k | 0 <= k < |s.cos| ensures !Of(s, k).pc.Choosing? && !Of(s, k).pc.Parked? {
      assert s.cos[k] == Coroutine(Starting, User, 0, Fresh);
    }
  }

  /** Without selects every change of status finds the status that it expects. */
  lemma NeverSpins(s: State, run: seq<Action>, s': State)
    requires Init(s) && Reaches(s, run, s') && NoSelect(run)
    ensures !s'.stuck
  {
    InitGood(s);
    RunGood(s, run, s');
  }

  /** Without selects blocked readers and writers never meet; a blocked writer means
      that the ring is full, or that there is none, and a blocked reader that it is
      empty. */
  lemma NeverBothBlocked(s: State, run: seq<Action>, s': State, ch: nat)
    requires Init(s) && Reaches(s, run, s') && NoSelect(run) && ch < |s'.chans|
    ensures var c := s'.chans[ch];
      && (c.w != [] ==> c.r == [] && |c.ring| == c.cap)
      && (c.r != [] ==> c.w == [] && c.ring == [])
      && (c.closed ==> c.w == [] && c.r == [])
  {
    InitGood(s);
    RunGood(s, run, s');
    assert Exclusive(s'.chans[ch]);
  }

  // ---------- order ----------

  /** What channel `ch` holds, ring first and then blocked writers from the oldest on,
      is the rest of what it accepted after what it delivered. */
  ghost predicate InOrder(s: State, ch: nat) {
    ch < |s.chans| && Puts(s.log, ch) == Takes(s.log, ch) + Outstanding(s.chans[ch])
  }

  /** A pop that meets a blocked writer takes its value, before those in the ring
      and those of writers blocked earlier. */
  ghost predicate Overtakes(s: State, a: Action, ch: nat)
    requires ch < |s.chans|
  {
    (a.PopOp? || a.GrabOp?) && a.ch == ch && s.chans[ch].w != [] && !Constant(Outstanding(s.chans[ch]), s.chans[ch].w[0].ele)
  }

  lemma WriteOrder(s: State, t: State, ch: nat, v: Value)
    requires InOrder(s, ch) && !s.chans[ch].closed && Exclusive(s.chans[ch]) && SelectFree(s.chans[ch]) && WroteTo(s, t, ch, v)
    ensures InOrder(t, ch)
  {
    var c, e := s.chans[ch], Event(s.running, true, ch, v);
    WriteAtEnd(c, v);
    if WriteTakes(c, v).Some? {
      PutThenTake(s.log, e, Event(Write(c, v).reader, false, ch, v));
    } else if WritePuts(c, v).Some? {
      OneEvent(s.log, e);
    }
  }

  /** A value that has to wait stands last. */
  lemma WaitOrder(s: State, t: State, ch: nat, x: Writer)
    requires InOrder(s, ch) && |t.chans| == |s.chans| && t.chans[ch] == s.chans[ch].(w := [x] + s.chans[ch].w) && !x.select
    requires t.log == s.log + [Event(s.running, true, ch, x.ele)]
    ensures InOrder(t, ch)
  {
    OneEvent(s.log, Event(s.running, true, ch, x.ele));
    assert ([x] + s.chans[ch].w)[1..] == s.chans[ch].w;
  }

  lemma TryWriteOrder(s: State, ch: nat, v: Value)
    requires InOrder(s, ch) && !s.chans[ch].closed && Exclusive(s.chans[ch]) && SelectFree(s.chans[ch])
    ensures TryWrite(s, ch, v).0.running == s.running && InOrder(TryWrite(s, ch, v).0, ch)
  {
    WriteShape(s, ch, v);
    TryKeepsRunning(s, ch, v);
    WriteOrder(s, TryWrite(s, ch, v).0, ch, v);
  }

  lemma PushOrder(s: State, ch: nat, v: Value, blocked: bool)
    requires Good(s) && Free(s) && InOrder(s, ch) && (blocked ==> s.running.Some?)
    ensures InOrder(PushStep(s, ch, v, blocked), ch) && InOrder(OfferStep(s, ch, v), ch)
  {
    if !s.chans[ch].closed {
      var (t, done) := TryWrite(Begun(s), ch, v);
      PlainChannels(s, ch);
      assert Exclusive(s.chans[ch]);
      TryWriteOrder(Begun(s), ch, v);
      AfterPushOrder(t, done, ch, v, blocked);
    }
  }

  lemma AfterPushOrder(t: State, done: bool, ch: nat, v: Value, blocked: bool)
    requires InOrder(t, ch)
    ensures InOrder(AfterPush(t, done, ch, v, blocked), ch)
    ensures InOrder(Ended(if done then t else LeftBehind(t, ch, v), PushDone(ch, v)), ch)
  {
    if !done { AfterOrder(t, ch, v); }
  }

  lemma AfterOrder(t: State, ch: nat, v: Value)
    requires InOrder(t, ch)
    ensures InOrder(ParkedPush(t, ch, v), ch) && InOrder(LeftBehind(t, ch, v), ch)
  {
    WaitOrder(t, ParkedPush(t, ch, v), ch, Writer(t.running, v, false));
    WaitOrder(t, LeftBehind(t, ch, v), ch, Writer(None, v, false));
  }

  lemma ReadOrder(s: State, t: State, ch: nat)
    requires InOrder(s, ch) && !s.chans[ch].closed && Exclusive(s.chans[ch]) && SelectFree(s.chans[ch]) && ReadFrom(s, t, ch)
    ensures InOrder(t, ch) <==> s.chans[ch].w == [] || Constant(Outstanding(s.chans[ch]), s.chans[ch].w[0].ele)
  {
    var c := s.chans[ch];
    if !RBlocked(c) {
      ReadInOrderIff(c, Puts(s.log, ch), Takes(s.log, ch));
      OneEvent(s.log, Event(s.running, false, ch, Read(c).value.value));
    }
  }

  lemma TryReadOrder(s: State, ch: nat)
    requires InOrder(s, ch) && !s.chans[ch].closed && Exclusive(s.chans[ch]) && SelectFree(s.chans[ch])
    ensures TryRead(s, ch).0.running == s.running && ch < |TryRead(s, ch).0.chans|
    ensures InOrder(TryRead(s, ch).0, ch) <==> s.chans[ch].w == [] || Constant(Outstanding(s.chans[ch]), s.chans[ch].w[0].ele)
  {
    ReadShape(s, ch);
    ReadOrder(s, TryRead(s, ch).0, ch);
  }

  lemma PopOrder(s: State, ch: nat, blocked: bool)
    requires Good(s) && Free(s) && InOrder(s, ch) && !s.chans[ch].closed && (blocked ==> s.running.Some?)
    ensures InOrder(PopStep(s, ch, blocked), ch) <==> s.chans[ch].w == [] || Constant(Outstanding(s.chans[ch]), s.chans[ch].w[0].ele)
  {
    PlainChannels(s, ch);
    assert Exclusive(s.chans[ch]);
    assert Begun(s).chans == s.chans && Begun(s).log == s.log && Begun(s).running == s.running;
    TryReadOrder(Begun(s), ch);
    var (t, _, value) := TryRead(Begun(s), ch);
    AfterPopOrder(t, value, ch, blocked);
  }

  lemma AfterPopOrder(t: State, value: Option<Value>, ch: nat, blocked: bool)
    requires ch < |t.chans| && (blocked ==> t.running.Some?)
    ensures InOrder(AfterPop(t, value, ch, blocked), ch) <==> InOrder(t, ch)
  {
  }

  /** Without selects this internal order survives a step of an open channel exactly
      if no pop overtakes. */
  lemma InOrderIff(s: State, run: seq<Action>, s': State, a: Action, ch: nat)
    requires Init(s) && Reaches(s, run, s') && NoSelect(run) && Enabled(s', a) && !a.SelectOp? && !a.PollOp? && ch < |s'.chans|
    requires !s'.chans[ch].closed && a != CloseOp(ch) && InOrder(s', ch)
    ensures InOrder(Do(s', a), ch) <==> !Overtakes(s', a, ch)
  {
    InitGood(s);
    RunGood(s, run, s');
    StepInOrder(s', a, ch);
  }

  lemma StepInOrder(s: State, a: Action, ch: nat)
    requires Good(s) && Enabled(s, a) && !a.SelectOp? && !a.PollOp? && ch < |s.chans|
    requires !s.chans[ch].closed && a != CloseOp(ch) && InOrder(s, ch)
    ensures InOrder(Do(s, a), ch) <==> !Overtakes(s, a, ch)
  {
    match a {
      case PushOp(at, v, blocked) => if at == ch { PushOrder(s, ch, v, blocked); } else { FrozenPush(s, at, v, blocked, ch); }
      case OfferOp(at, v) => if at == ch { PushOrder(s, ch, v, false); } else { FrozenPush(s, at, v, false, ch); }
      case PopOp(at, blocked) => if at == ch { PopOrder(s, ch, blocked); } else { FrozenPop(s, at, blocked, ch); }
      case GrabOp(at) => if at == ch { PopOrder(s, ch, false); } else { GrabFrozen(s, at, ch); }
      case CloseOp(at) => FrozenClose(s, at, ch);
      case Resume => ResumeOrder(s, ch);
      case _ =>
    }
  }

  lemma GrabFrozen(s: State, at: nat, ch: nat)
    requires at < |s.chans| && ch < |s.chans| && at != ch
    ensures Frozen(s, GrabStep(s, at), ch)
  {
    FrozenPop(s, at, false, ch);
  }

  lemma ResumeOrder(s: State, ch: nat)
    requires Good(s) && Enabled(s, Resume) && InOrder(s, ch)
    ensures InOrder(ResumeStep(s), ch)
  {
    var k := s.rq[0];
    assert k in s.rq && Placed(s, k) && !Of(s, k).pc.Parked?;
  }
}
