/** What a select does over all its rounds, and what the others' steps do to a
    coroutine that is parked. */
module SelectRuns {
  import opened Collections
  import opened ChannelSpec
  import opened Scheduler
  import opened SchedulerLaws
  import opened SchedulerSteps
  import opened ClosingLaws
  import opened SelectLaws
  import opened Runs

  /** The operation of `k` is the same one, and a step that took a waiter of `k`
      away has woken it: `k` waited, and is now ready and queued. */
  ghost predicate Respects(s: State, s': State, k: Co) {
    && k < |s.cos| == |s'.cos| && |s'.chans| == |s.chans| && s'.cos[k].since == s.cos[k].since
    && forall ch :: 0 <= ch < |s.chans| && !GoneFrom(s.chans[ch], k) ==> !GoneFrom(s'.chans[ch], k) || (s.cos[k].status.Waiting? && Called(s', k))
  }

  ghost predicate Called(s: State, k: Co) {
    k < |s.cos| && s.cos[k].status.Ready? && k in s.rq
  }

  /** Waiters are only added, and `k` itself is untouched. */
  ghost predicate Adds(s: State, s': State, k: Co) {
    && k < |s.cos| == |s'.cos| && |s'.chans| == |s.chans| && s'.cos[k] == s.cos[k] && s'.rq == s.rq
    && forall ch :: 0 <= ch < |s.chans| && !GoneFrom(s.chans[ch], k) ==> !GoneFrom(s'.chans[ch], k)
  }

  lemma AddsLater(s: State, t: State, s': State, k: Co)
    requires Respects(s, t, k) && Adds(t, s', k)
    ensures Respects(s, s', k)
  {
  }

  lemma WokeRespects(s: State, s': State, ch: nat, ks: seq<Co>, k: Co)
    requires Net(s) && Woke(s, s', ch, ks) && k < |s.cos|
    ensures Respects(s, s', k)
  {
    if k !in ks && !GoneFrom(s.chans[ch], k) {
      if x :| x in s.chans[ch].w && x.co == Some(k) {
        assert x in s'.chans[ch].w;
      } else {
        var x :| x in s.chans[ch].r && x.co == k;
        assert x in s'.chans[ch].r;
      }
    }
  }

  lemma WriteRespects(s: State, ch: nat, v: Value, k: Co)
    requires Net(s) && ch < |s.chans| && !s.stuck && !TryWrite(s, ch, v).0.stuck && k < |s.cos|
    ensures Respects(s, TryWrite(s, ch, v).0, k) && TryWrite(s, ch, v).0.running == s.running
  {
    WriteWoke(s, ch, v);
    WokeRespects(s, TryWrite(s, ch, v).0, ch, WriteWakes(s.chans[ch]), k);
  }

  lemma ReadRespects(s: State, ch: nat, k: Co)
    requires Net(s) && ch < |s.chans| && !s.stuck && !TryRead(s, ch).0.stuck && k < |s.cos|
    ensures Respects(s, TryRead(s, ch).0, k) && TryRead(s, ch).0.running == s.running
  {
    ReadWoke(s, ch);
    WokeRespects(s, TryRead(s, ch).0, ch, ReadWakes(s.chans[ch]), k);
  }

  lemma AfterPushAdds(t: State, done: bool, ch: nat, v: Value, blocked: bool, k: Co)
    requires ch < |t.chans| && k < |t.cos| && t.running != Some(k)
    ensures Adds(t, AfterPush(t, done, ch, v, blocked), k)
    ensures Adds(t, Ended(LeftBehind(t, ch, v), PushDone(ch, v)), k)
  {
    var c := t.chans[ch];
    forall x | x in c.w ensures forall y :: x in [y] + c.w {}
  }

  lemma AfterPopAdds(t: State, value: Option<Value>, ch: nat, blocked: bool, k: Co)
    requires ch < |t.chans| && k < |t.cos| && t.running != Some(k) && (blocked ==> t.running.Some?)
    ensures Adds(t, AfterPop(t, value, ch, blocked), k)
  {
    var c := t.chans[ch];
    forall x | x in c.r ensures forall y :: x in [y] + c.r {}
  }

  lemma PushRespects(s: State, ch: nat, v: Value, blocked: bool, k: Co)
    requires Inv(s) && Free(s) && ch < |s.chans| && !s.stuck && k < |s.cos| && s.running != Some(k)
    ensures !PushStep(s, ch, v, blocked).stuck ==> Respects(s, PushStep(s, ch, v, blocked), k)
    ensures !OfferStep(s, ch, v).stuck ==> Respects(s, OfferStep(s, ch, v), k)
  {
    if !s.chans[ch].closed && !TryWrite(Begun(s), ch, v).0.stuck {
      var (t, done) := TryWrite(Begun(s), ch, v);
      BegunMid(s);
      WriteRespects(Begun(s), ch, v, k);
      AfterPushAdds(t, done, ch, v, blocked, k);
      assert Respects(s, t, k);
      AddsLater(s, t, AfterPush(t, done, ch, v, blocked), k);
      if !done { AddsLater(s, t, Ended(LeftBehind(t, ch, v), PushDone(ch, v)), k); }
    }
  }

  lemma PopRespects(s: State, ch: nat, blocked: bool, k: Co)
    requires Inv(s) && Free(s) && ch < |s.chans| && !s.stuck && k < |s.cos| && s.running != Some(k) && (blocked ==> s.running.Some?)
    ensures !PopStep(s, ch, blocked).stuck ==> Respects(s, PopStep(s, ch, blocked), k)
  {
    if s.chans[ch].closed {
      RefusedRespects(s, PopNull, k);
    } else {
      var (t, _, value) := TryRead(Begun(s), ch);
      TryKeepsRunning(Begun(s), ch, 0);
      AfterPopStuck(t, value, ch, blocked);
      if !t.stuck { OpenPopRespects(s, ch, blocked, k); }
    }
  }

  lemma RefusedRespects(s: State, result: Result, k: Co)
    requires k < |s.cos| && s.running != Some(k)
    ensures Respects(s, Ended(Begun(s), result), k)
  {
  }

  lemma AfterPopStuck(t: State, value: Option<Value>, ch: nat, blocked: bool)
    requires ch < |t.chans| && (blocked ==> t.running.Some?)
    ensures t.stuck ==> AfterPop(t, value, ch, blocked).stuck
  {
  }

  lemma OpenPopRespects(s: State, ch: nat, blocked: bool, k: Co)
    requires Inv(s) && Free(s) && ch < |s.chans| && !s.stuck && k < |s.cos| && s.running != Some(k) && (blocked ==> s.running.Some?)
    requires !s.chans[ch].closed && !TryRead(Begun(s), ch).0.stuck
    ensures Respects(s, PopStep(s, ch, blocked), k)
  {
    var (t, _, value) := TryRead(Begun(s), ch);
    BegunMid(s);
    ReadRespects(Begun(s), ch, k);
    AfterPopAdds(t, value, ch, blocked, k);
    assert Respects(s, t, k);
    AddsLater(s, t, AfterPop(t, value, ch, blocked), k);
  }

  lemma CloseRespects(s: State, ch: nat, k: Co)
    requires Inv(s) && Free(s) && ch < |s.chans| && !s.stuck && k < |s.cos| && s.running != Some(k) && !CloseStep(s, ch).stuck
    ensures Respects(s, CloseStep(s, ch), k)
  {
    if !s.chans[ch].closed {
      BegunMid(s);
      CloseWoke(Begun(s), ch);
      WokeRespects(Begun(s), Closing(Begun(s), ch), ch, Sleepers(s.chans[ch]), k);
    }
  }

  lemma ParkRespects(s: State, me: Co, cases: seq<Case>, k: Co)
    requires Net(s) && s.running == Some(me) && k < |s.cos| && k != me && DistinctCases(s, cases)
    requires forall i :: 0 <= i < |cases| ==> MustWait(s.chans, cases[i])
    ensures Respects(s, ParkedSelect(s, me, cases), k)
  {
    var s' := ParkedSelect(s, me, cases);
    PostIs(s.chans, me, cases);
    forall ch | 0 <= ch < |s.chans| && !GoneFrom(s.chans[ch], k) ensures !GoneFrom(s'.chans[ch], k) {
      ParkSelectAt(s, s', me, cases, ch);
    }
  }

  lemma CaseRespects(s: State, x: Case, k: Co)
    requires Net(s) && x.ch < |s.chans| && !s.stuck && !TryCase(s, x).stuck && k < |s.cos| && s.running != Some(k)
    ensures Respects(s, TryCase(s, x), k)
  {
    if !s.chans[x.ch].closed {
      if x.Push? { WriteRespects(s, x.ch, x.ele, k); } else { ReadRespects(s, x.ch, k); }
    }
  }

  lemma PollRespects(s: State, cases: seq<Case>, k: Co)
    requires Inv(s) && Enabled(s, PollOp(cases)) && !PollStep(s, cases).stuck && k < |s.cos|
    ensures Respects(s, PollStep(s, cases), k)
  {
    var i := Available(s.chans, cases);
    if i < |cases| { CaseRespects(s, cases[i], k); }
  }

  lemma ChooseRespects(s: State, k: Co)
    requires Inv(s) && Enabled(s, Choose) && !Do(s, Choose).stuck && k < |s.cos| && s.running != Some(k)
    ensures Respects(s, Do(s, Choose), k)
  {
    var me, cases := s.running.value, Of(s, s.running.value).pc.cases;
    var i := Available(s.chans, cases);
    if i < |cases| {
      CaseRespects(s, cases[i], k);
    } else if Of(s, me).pc.blocked {
      ParkRespects(s, me, cases, k);
    }
  }

  lemma ResumeRespects(s: State, k: Co)
    requires Inv(s) && Enabled(s, Resume) && k < |s.cos| && k != s.rq[0]
    ensures Respects(s, Do(s, Resume), k)
  {
    var s' := ResumeStep(s);
    ResumeNet(s);
    assert s.rq[0] in s.rq;
    forall ch | 0 <= ch < |s.chans| && !GoneFrom(s.chans[ch], k) ensures !GoneFrom(s'.chans[ch], k) {
      assert RunsAt(s, s', s.rq[0], ch);
      StillThere(s.chans[ch], s'.chans[ch], s.rq[0], k);
    }
  }

  lemma StillThere(c: Channel, c': Channel, j: Co, k: Co)
    requires j != k && !GoneFrom(c, k)
    requires (forall x :: x in c.w && x.co != Some(j) ==> x in c'.w) && (forall x :: x in c.r && x.co != j ==> x in c'.r)
    ensures !GoneFrom(c', k)
  {
    if x :| x in c.w && x.co == Some(k) {
      assert x in c'.w;
    } else {
      var x :| x in c.r && x.co == k;
      assert x in c'.r;
    }
  }

  /** The waiters of a coroutine go only when it is woken, or when it takes them back
      itself as it resumes; and its operation stays the same one all the while. */
  lemma OnlyWakingRemoves(s: State, run: seq<Action>, s': State, a: Action, k: Co)
    requires Init(s) && Reaches(s, run, s') && Enabled(s', a) && !Do(s', a).stuck
    requires k < |s'.cos| && s'.running != Some(k) && !(a == Resume && k == s'.rq[0])
    ensures Respects(s', Do(s', a), k)
  {
    InitInv(s);
    RunInv(s, run, s');
    match a
    case PushOp(ch, v, blocked) => PushRespects(s', ch, v, blocked, k);
    case PopOp(ch, blocked) => PopRespects(s', ch, blocked, k);
    case OfferOp(ch, v) => PushRespects(s', ch, v, false, k);
    case GrabOp(ch) => PopRespects(s', ch, false, k);
    case CloseOp(ch) => CloseRespects(s', ch, k);
    case Choose => ChooseRespects(s', k);
    case Resume => ResumeRespects(s', k);
    case PollOp(cases) => PollRespects(s', cases, k);
    case SelectOp(_, _) =>
    case YieldOp =>
    case FinishOp =>
    case JoinOp(_) =>
    case EndPass =>
  }

  /** What a round of the running coroutine's select comes to: it returns a case that
      need not wait, or nothing, or goes on with nothing accepted or delivered. */
  ghost predicate RoundOf(s: State, t: State, me: Co)
    requires me < |s.cos| && (s.cos[me].pc.Choosing?)
  {
    var pc, y := s.cos[me].pc, Of(t, me);
    && me < |t.cos| && y.since == s.cos[me].since
    && if !y.pc.User? then t.log == s.log
       else y.status.Running? && match y.result
         case Selected(x, got) =>
           x in pc.cases && x.ch < |s.chans| && !MustWait(s.chans, x) && (x.Pop? && got.None? ==> s.chans[x.ch].closed)
         case NothingSelected => !pc.blocked && t.log == s.log
         case _ => false
  }

  /** The end of a round that tried case `x`. */
  lemma RoundAfter(s: State, t: State, me: Co, x: Case, got: Option<Value>, done: bool)
    requires s.running == Some(me) && me < |s.cos| && s.cos[me].pc.Choosing? && s.cos[me].status.Running? && Same(s, t)
    requires x in s.cos[me].pc.cases && x.ch < |s.chans| && !MustWait(s.chans, x)
    requires (done && x.Pop? ==> got.Some?) && (!done ==> t.log == s.log)
    ensures RoundOf(s, if done then Ended(t, Selected(x, got)) else t, me)
  {
  }

  lemma RoundPush(s: State, me: Co, x: Case)
    requires Mid(s, []) && s.running == Some(me) && me < |s.cos| && s.cos[me].pc.Choosing? && s.cos[me].status.Running?
    requires x in s.cos[me].pc.cases && x.ch < |s.chans| && !MustWait(s.chans, x)
    requires x.Push? && !s.chans[x.ch].closed && !s.stuck && !TryWrite(s, x.ch, x.ele).0.stuck
    ensures var (t, done) := TryWrite(s, x.ch, x.ele); RoundOf(s, if done then Ended(t, Selected(x, None)) else t, me)
  {
    WriteMid(s, x.ch, x.ele);
    QuietWrite(s, x.ch, x.ele);
    var (t, done) := TryWrite(s, x.ch, x.ele);
    RoundAfter(s, t, me, x, None, done);
  }

  lemma QuietRead(s: State, ch: nat)
    requires ch < |s.chans| && !s.chans[ch].closed
    ensures var (t, done, value) := TryRead(s, ch); (done <==> value.Some?) && (!done ==> t.log == s.log)
  {
    ReadShape(s, ch);
  }

  lemma RoundPop(s: State, me: Co, x: Case)
    requires Mid(s, []) && s.running == Some(me) && me < |s.cos| && s.cos[me].pc.Choosing? && s.cos[me].status.Running?
    requires x in s.cos[me].pc.cases && x.ch < |s.chans| && !MustWait(s.chans, x)
    requires x.Pop? && !s.chans[x.ch].closed && !s.stuck && !TryRead(s, x.ch).0.stuck
    ensures var (t, done, value) := TryRead(s, x.ch); RoundOf(s, if done then Ended(t, Selected(x, value)) else t, me)
  {
    ReadMid(s, x.ch);
    QuietRead(s, x.ch);
    var (t, done, value) := TryRead(s, x.ch);
    RoundAfter(s, t, me, x, value, done);
  }

  lemma RoundResult(s: State, me: Co)
    requires Inv(s) && Enabled(s, Choose) && !Do(s, Choose).stuck && s.running == Some(me)
    ensures me < |s.cos| && s.cos[me].pc.Choosing? && RoundOf(s, Do(s, Choose), me)
  {
    var cases := s.cos[me].pc.cases;
    var i := Available(s.chans, cases);
    assert Placed(s, me);
    if i < |cases| {
      assert cases[i] in cases;
      ChoosingMid(s);
      RoundCase(s, me, cases[i]);
    }
  }

  lemma RoundCase(s: State, me: Co, x: Case)
    requires Mid(s, []) && s.running == Some(me) && me < |s.cos| && s.cos[me].pc.Choosing? && s.cos[me].status.Running?
    requires x in s.cos[me].pc.cases && x.ch < |s.chans| && !MustWait(s.chans, x) && !s.stuck && !TryCase(s, x).stuck
    ensures RoundOf(s, TryCase(s, x), me)
  {
    if !s.chans[x.ch].closed {
      if x.Push? { RoundPush(s, me, x); } else { RoundPop(s, me, x); }
    }
  }

  lemma RunningGone(s: State, k: Co, ch: nat)
    requires Net(s) && k < |s.cos| && s.cos[k].status.Running? && ch < |s.chans|
    ensures GoneFrom(s.chans[ch], k)
  {
    assert NodesOk(s, ch);
    forall x | x in s.chans[ch].w ensures x.co != Some(k) { assert WriterOk(s, ch, x); }
    forall x | x in s.chans[ch].r ensures x.co != k { assert ReaderOk(s, ch, x); }
  }

  /** Until it returns, a select has done nothing since it began; the round in which
      it returns does exactly what it returns, and leaves no waiter of its own. */
  lemma SelectRound(s: State, run: seq<Action>, s': State, me: Co)
    requires Init(s) && Reaches(s, run, s') && Enabled(s', Choose) && !Do(s', Choose).stuck && s'.running == Some(me)
    ensures me < |s'.cos| && s'.cos[me].pc.Choosing? && Did(s'.log, s'.cos[me].since, me) == []
    ensures RoundOf(s', Do(s', Choose), me)
    ensures var t := Do(s', Choose);
      Of(t, me).pc.User? ==>
        && Did(t.log, Of(t, me).since, me) == Effects(me, Of(t, me).result)
        && forall ch :: 0 <= ch < |t.chans| ==> GoneFrom(t.chans[ch], me)
  {
    InitInv(s);
    RunInv(s, run, s');
    RoundResult(s', me);
    StepInv(s', Choose);
    assert Accounted(s', me);
    Returned(Do(s', Choose), me);
  }

  lemma Returned(t: State, me: Co)
    requires Inv(t) && me < |t.cos|
    ensures t.cos[me].status.Running? && t.cos[me].pc.User? ==>
      && Did(t.log, t.cos[me].since, me) == Effects(me, t.cos[me].result)
      && forall ch :: 0 <= ch < |t.chans| ==> GoneFrom(t.chans[ch], me)
  {
    assert Accounted(t, me);
    if t.cos[me].status.Running? {
      forall ch | 0 <= ch < |t.chans| ensures GoneFrom(t.chans[ch], me) { RunningGone(t, me, ch); }
    }
  }

  /** A resumed select takes all its waiters back and chooses again, having done
      nothing meanwhile. */
  lemma ResumedSelect(s: State, run: seq<Action>, s': State)
    requires Init(s) && Reaches(s, run, s') && Enabled(s', Resume) && Of(s', s'.rq[0]).pc.Parked?
    ensures var t, k := Do(s', Resume), s'.rq[0];
      && !t.stuck && k < |s'.cos| == |t.cos| && t.running == Some(k) && t.log == s'.log
      && t.cos[k] == Coroutine(Running, Choosing(s'.cos[k].pc.cases, true), s'.cos[k].since, s'.cos[k].result)
      && Did(t.log, t.cos[k].since, k) == []
      && forall ch :: 0 <= ch < |t.chans| ==> GoneFrom(t.chans[ch], k)
  {
    InitInv(s);
    RunInv(s, run, s');
    var t, k := ResumeStep(s'), s'.rq[0];
    assert k in s'.rq && Placed(s', k);
    assert Accounted(s', k);
    ResumeNet(s');
    forall ch | 0 <= ch < |t.chans| ensures GoneFrom(t.chans[ch], k) { assert RunsAt(s', t, k, ch); }
  }
}
