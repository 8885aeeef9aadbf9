/** What every run of module Scheduler keeps. */
module Runs {
  import opened Collections
  import opened ChannelSpec
  import opened Scheduler
  import opened SchedulerLaws
  import opened SchedulerSteps
  import opened ClosingLaws
  import opened SelectLaws

  lemma InitInv(s: State)
    requires Init(s)
    ensures Inv(s)
  {
    forall ch | 0 <= ch < |s.chans| ensures Tidy(s.chans[ch]) && NodesOk(s, ch) && Conserved(s.log, ch, s.chans[ch]) {
      assert s.chans[ch] == Channel(s.chans[ch].cap, [], [], [], false);
    }
    forall k | 0 <= k < |s.cos| ensures Placed(s, k) && CasesOk(s, k) && Accounted(s, k) {
      assert s.cos[k] == Coroutine(Starting, User, 0, Fresh);
    }
  }

  lemma StepInv(s: State, a: Action)
    requires Inv(s) && Enabled(s, a) && !Do(s, a).stuck
    ensures Inv(Do(s, a))
  {
    match a
    case PushOp(ch, v, blocked) => PushInv(s, ch, v, blocked);
    case PopOp(ch, blocked) => PopInv(s, ch, blocked);
    case OfferOp(ch, v) => OfferInv(s, ch, v);
    case GrabOp(ch) => GrabInv(s, ch);
    case CloseOp(ch) => CloseInv(s, ch);
    case SelectOp(cases, blocked) => SelectInv(s, cases, blocked);
    case Choose => ChooseInv(s);
    case YieldOp => YieldInv(s);
    case FinishOp => FinishInv(s);
    case JoinOp(co) => JoinInv(s, co);
    case Resume => ResumeInv(s);
    case EndPass => EndPassInv(s);
    case PollOp(cases) => PollInv(s, cases);
  }

  lemma {:induction false} RunInv(s: State, run: seq<Action>, s': State)
    requires Inv(s) && Reaches(s, run, s') && !s'.stuck
    ensures Inv(s')
    decreases |run|
  {
    if run != [] {
      StepInv(s, run[0]);
      RunInv(Do(s, run[0]), run[1..], s');
    }
  }

  /** In every run that mixes blocking, non-blocking, unenforceable and select
      operations, an open channel has accepted what it delivered and what it holds:
      its ring and its blocked writers, select offers aside. */
  lemma NothingLost(s: State, run: seq<Action>, s': State, ch: nat)
    requires Init(s) && Reaches(s, run, s') && !s'.stuck && ch < |s'.chans| && !s'.chans[ch].closed
    ensures multiset(Puts(s'.log, ch)) == multiset(Takes(s'.log, ch)) + multiset(s'.chans[ch].ring) + multiset(Pending(s'.chans[ch].w))
    ensures |s'.chans[ch].ring| <= s'.chans[ch].cap
  {
    InitInv(s);
    RunInv(s, run, s');
    assert Conserved(s'.log, ch, s'.chans[ch]) && Tidy(s'.chans[ch]);
  }

  /** Once an operation has returned, its coroutine has accepted or delivered since
      it began exactly what the result says, once; a select still under way has done
      nothing, however many rounds it took. */
  lemma DoneExactlyOnce(s: State, run: seq<Action>, s': State, k: Co)
    requires Init(s) && Reaches(s, run, s') && !s'.stuck && k < |s'.cos|
    ensures var x := s'.cos[k];
      && (x.pc.User? ==> Did(s'.log, x.since, k) == Effects(k, x.result))
      && (x.pc.Choosing? || x.pc.Parked? ==> Did(s'.log, x.since, k) == [])
  {
    InitInv(s);
    RunInv(s, run, s');
    assert Accounted(s', k);
  }

  /** A coroutine that runs, and so one whose select has just returned, has no waiter
      left on any channel. */
  lemma NoWaiterLeft(s: State, run: seq<Action>, s': State, k: Co, ch: nat)
    requires Init(s) && Reaches(s, run, s') && !s'.stuck && s'.running == Some(k) && ch < |s'.chans|
    ensures GoneFrom(s'.chans[ch], k)
  {
    InitInv(s);
    RunInv(s, run, s');
    assert NodesOk(s', ch);
    forall x | x in s'.chans[ch].w ensures x.co != Some(k) { assert WriterOk(s', ch, x); }
    forall x | x in s'.chans[ch].r ensures x.co != k { assert ReaderOk(s', ch, x); }
  }

  /** A coroutine parked in a push has one waiter: on that channel, once. */
  ghost predicate OneWaiter(s: State, k: Co) {
    match Of(s, k).pc
    case PushWait(ch, v) =>
      && ch < |s.chans| && Writer(Some(k), v, false) in s.chans[ch].w
      && (forall i, x :: 0 <= i < |s.chans| && x in s.chans[i].w && x.co == Some(k) ==> i == ch)
      && (forall i, x :: 0 <= i < |s.chans| && x in s.chans[i].r ==> x.co != k)
      && forall i, j :: 0 <= i < j < |s.chans[ch].w| ==> !(s.chans[ch].w[i].co == s.chans[ch].w[j].co == Some(k))
    case PopWait(ch, _) =>
      && ch < |s.chans| && Reader(k, false) in s.chans[ch].r
      && (forall i, x :: 0 <= i < |s.chans| && x in s.chans[i].r && x.co == k ==> i == ch)
      && (forall i, x :: 0 <= i < |s.chans| && x in s.chans[i].w ==> x.co != Some(k))
      && forall i, j :: 0 <= i < j < |s.chans[ch].r| ==> !(s.chans[ch].r[i].co == s.chans[ch].r[j].co == k)
    case _ => true
  }

  lemma {:induction false} WriterOnce(w: seq<Writer>, i: nat, j: nat)
    requires UniqueWriters(w) && i < j < |w|
    ensures w[i].co.Some? ==> w[i].co != w[j].co
  {
    if i == 0 {
      assert w[j] == w[1..][j - 1];
    } else {
      WriterOnce(w[1..], i - 1, j - 1);
    }
  }

  lemma {:induction false} ReaderOnce(r: seq<Reader>, i: nat, j: nat)
    requires UniqueReaders(r) && i < j < |r|
    ensures r[i].co != r[j].co
  {
    if i == 0 {
      assert r[j] == r[1..][j - 1];
    } else {
      ReaderOnce(r[1..], i - 1, j - 1);
    }
  }

  lemma WaitsOnce(s: State, k: Co)
    requires Net(s) && k < |s.cos| && s.cos[k].status.Waiting?
    ensures OneWaiter(s, k)
  {
    assert Placed(s, k);
    forall i, x | 0 <= i < |s.chans| && x in s.chans[i].w && x.co == Some(k)
      ensures if x.select then s.cos[k].pc.Parked? else s.cos[k].pc == PushWait(i, x.ele)
    {
      assert NodesOk(s, i) && WriterOk(s, i, x);
    }
    forall i, x | 0 <= i < |s.chans| && x in s.chans[i].r && x.co == k
      ensures if x.select then s.cos[k].pc.Parked? else s.cos[k].pc == PopWait(i, None)
    {
      assert NodesOk(s, i) && ReaderOk(s, i, x);
    }
    if Of(s, k).pc.PushWait? || Of(s, k).pc.PopWait? {
      var c := s.chans[Of(s, k).pc.ch];
      assert Tidy(c);
      forall i, j | 0 <= i < j < |c.w| ensures !(c.w[i].co == c.w[j].co == Some(k)) { WriterOnce(c.w, i, j); }
      forall i, j | 0 <= i < j < |c.r| ensures !(c.r[i].co == c.r[j].co == k) { ReaderOnce(c.r, i, j); }
    }
  }

  /** Every coroutine is in exactly one place: running, once in the ready queue, once
      in the queue of the pass, or waiting with its waiters posted, exactly one if it
      waits in a push or a pop. */
  lemma OnePlace(s: State, run: seq<Action>, s': State, k: Co)
    requires Init(s) && Reaches(s, run, s') && !s'.stuck && k < |s'.cos|
    ensures Distinct(s'.rq) && Distinct(s'.later) && !(k in s'.rq && k in s'.later)
    ensures match s'.cos[k].status
      case Starting => s'.running != Some(k) && k !in s'.later
      case Ready => s'.running != Some(k) && (k in s'.rq || k in s'.later)
      case Running => s'.running == Some(k) && k !in s'.rq && k !in s'.later
      case Waiting => s'.running != Some(k) && k !in s'.rq && k !in s'.later && Posted(s', k) && OneWaiter(s', k)
      case Terminated => s'.running != Some(k) && k !in s'.rq && k !in s'.later
  {
    InitInv(s);
    RunInv(s, run, s');
    assert Placed(s', k);
    if s'.cos[k].status.Waiting? { WaitsOnce(s', k); }
  }

  // ---------- when a change of status waits for ever ----------

  /** A write spins exactly when the reader it would wake is a select that is ready
      already; a read likewise. */
  lemma WriteSpinsIff(s: State, ch: nat, v: Value)
    requires Net(s) && !s.stuck && ch < |s.chans|
    ensures TryWrite(s, ch, v).0.stuck <==>
              var c := s.chans[ch]; !c.closed && c.r != [] && c.r[0].select && Of(s, c.r[0].co).status.Ready?
  {
    if s.chans[ch].r != [] {
      assert NodesOk(s, ch) && ReaderOk(s, ch, s.chans[ch].r[0]);
    }
  }

  lemma ReadSpinsIff(s: State, ch: nat)
    requires Net(s) && !s.stuck && ch < |s.chans|
    ensures TryRead(s, ch).0.stuck <==>
              var c := s.chans[ch]; !c.closed && c.w != [] && c.w[0].co.Some? && c.w[0].select && Of(s, c.w[0].co.value).status.Ready?
  {
    if s.chans[ch].w != [] {
      assert NodesOk(s, ch) && WriterOk(s, ch, s.chans[ch].w[0]);
    }
  }

  // ---------- closing ----------

  lemma SleeperCalled(b: State, ch: nat, k: Co)
    requires Net(b) && ch < |b.chans| && !b.chans[ch].closed && !b.stuck && !Closing(b, ch).stuck && !GoneFrom(b.chans[ch], k)
    ensures var t := Closing(b, ch);
      && t.chans == b.chans[ch := Shut(b.chans[ch])] && k < |t.cos| == |b.cos| && b.cos[k].status.Waiting?
      && t.running == b.running && t.cos[k].status.Ready? && k in t.rq
  {
    WriterCosAre(b.chans[ch].w);
    ReaderCosAre(b.chans[ch].r);
    assert k in Sleepers(b.chans[ch]);
    SleeperIs(b, ch, k);
    CloseWoke(b, ch);
    CloseKeepsPc(b, ch);
  }

  /** Closing leaves no waiter, and everyone who waited there is ready and queued. */
  lemma CloseWakesAll(s: State, run: seq<Action>, s': State, ch: nat, k: Co)
    requires Init(s) && Reaches(s, run, s') && Enabled(s', CloseOp(ch)) && !CloseStep(s', ch).stuck
    requires !s'.chans[ch].closed && !GoneFrom(s'.chans[ch], k)
    ensures var t := CloseStep(s', ch);
      && t.chans == s'.chans[ch := s'.chans[ch].(closed := true, w := [], r := [])]
      && k < |t.cos| && t.cos[k].status.Ready? && k in t.rq
  {
    InitInv(s);
    RunInv(s, run, s');
    BegunMid(s');
    SleeperCalled(Begun(s'), ch, k);
    if s'.running.Some? { assert Placed(s', s'.running.value); }
  }

  // ---------- a closed channel is frozen ----------

  /** Channel `ch` and its account are as they were. */
  ghost predicate Frozen(s: State, s': State, ch: nat) {
    && ch < |s.chans| == |s'.chans| && s'.chans[ch] == s.chans[ch]
    && Puts(s'.log, ch) == Puts(s.log, ch) && Takes(s'.log, ch) == Takes(s.log, ch)
  }

  lemma FrozenWrite(s: State, at: nat, v: Value, ch: nat)
    requires at < |s.chans| && ch < |s.chans| && at != ch && !s.chans[at].closed
    ensures Frozen(s, TryWrite(s, at, v).0, ch)
  {
    var c, e := s.chans[at], Event(s.running, true, at, v);
    WriteShape(s, at, v);
    PutThenTake(s.log, e, Event(Write(c, v).reader, false, at, v));
    OneEvent(s.log, e);
  }

  lemma FrozenRead(s: State, at: nat, ch: nat)
    requires at < |s.chans| && ch < |s.chans| && at != ch
    ensures Frozen(s, TryRead(s, at).0, ch)
  {
    var value := Read(s.chans[at]).value;
    ReadShape(s, at);
    if value.Some? { OneEvent(s.log, Event(s.running, false, at, value.value)); }
  }

  lemma FrozenChoose(s: State, ch: nat)
    requires Inv(s) && Enabled(s, Choose) && ch < |s.chans| && s.chans[ch].closed
    ensures Frozen(s, Do(s, Choose), ch)
  {
    var me, cases := s.running.value, Of(s, s.running.value).pc.cases;
    var i := Available(s.chans, cases);
    if i < |cases| {
      FrozenCase(s, cases[i], ch);
    } else {
      FrozenPost(s.chans, me, cases, ch);
    }
  }

  lemma FrozenCase(s: State, x: Case, ch: nat)
    requires x.ch < |s.chans| && ch < |s.chans| && s.chans[ch].closed
    ensures Frozen(s, TryCase(s, x), ch)
  {
    if !s.chans[x.ch].closed {
      if x.Push? { FrozenWrite(s, x.ch, x.ele, ch); } else { FrozenRead(s, x.ch, ch); }
    }
  }

  lemma FrozenPoll(s: State, cases: seq<Case>, ch: nat)
    requires Enabled(s, PollOp(cases)) && ch < |s.chans| && s.chans[ch].closed
    ensures Frozen(s, PollStep(s, cases), ch)
  {
    var i := Available(s.chans, cases);
    if i < |cases| { FrozenCase(s, cases[i], ch); }
  }

  lemma FrozenPost(chans: seq<Channel>, me: Co, cases: seq<Case>, ch: nat)
    requires CasesOn(chans, cases) && ch < |chans| && chans[ch].closed
    requires forall j :: 0 <= j < |cases| ==> MustWait(chans, cases[j])
    ensures |Post(chans, me, cases)| == |chans| && Post(chans, me, cases)[ch] == chans[ch]
  {
    PostIs(chans, me, cases);
    forall j | 0 <= j < |cases| ensures cases[j].ch != ch { assert MustWait(chans, cases[j]); }
  }

  lemma FrozenOn(s: State, t: State, u: State, ch: nat)
    requires Frozen(s, t, ch) && Frozen(t, u, ch)
    ensures Frozen(s, u, ch)
  {
  }

  lemma FrozenAfter(t: State, done: bool, at: nat, v: Value, value: Option<Value>, blocked: bool, ch: nat)
    requires at < |t.chans| && ch < |t.chans| && at != ch && (blocked ==> t.running.Some?)
    ensures Frozen(t, AfterPush(t, done, at, v, blocked), ch) && Frozen(t, AfterPop(t, value, at, blocked), ch)
    ensures Frozen(t, Ended(if done then t else LeftBehind(t, at, v), PushDone(at, v)), ch)
  {
    FrozenPut(t, at, v, ch);
  }

  lemma FrozenPush(s: State, at: nat, v: Value, blocked: bool, ch: nat)
    requires at < |s.chans| && ch < |s.chans| && (at != ch || s.chans[ch].closed) && (blocked ==> s.running.Some?)
    ensures Frozen(s, PushStep(s, at, v, blocked), ch) && Frozen(s, OfferStep(s, at, v), ch)
  {
    if !s.chans[at].closed {
      var (t, done) := TryWrite(Begun(s), at, v);
      FrozenWrite(Begun(s), at, v, ch);
      TryKeepsRunning(Begun(s), at, v);
      FrozenAfter(t, done, at, v, None, blocked, ch);
      FrozenOn(s, t, AfterPush(t, done, at, v, blocked), ch);
      FrozenOn(s, t, Ended(if done then t else LeftBehind(t, at, v), PushDone(at, v)), ch);
    }
  }

  lemma FrozenPop(s: State, at: nat, blocked: bool, ch: nat)
    requires at < |s.chans| && ch < |s.chans| && (at != ch || s.chans[ch].closed) && (blocked ==> s.running.Some?)
    ensures Frozen(s, PopStep(s, at, blocked), ch)
  {
    if !s.chans[at].closed {
      var (t, _, value) := TryRead(Begun(s), at);
      FrozenRead(Begun(s), at, ch);
      TryKeepsRunning(Begun(s), at, 0);
      FrozenAfter(t, true, at, 0, value, blocked, ch);
      FrozenOn(s, t, AfterPop(t, value, at, blocked), ch);
    }
  }

  lemma FrozenClose(s: State, at: nat, ch: nat)
    requires at < |s.chans| && ch < |s.chans| && (at != ch || s.chans[ch].closed)
    ensures Frozen(s, CloseStep(s, at), ch)
  {
    if !s.chans[at].closed {
      WakeAllKeeps(Begun(s).(chans := s.chans[at := Shut(s.chans[at])]), Sleepers(s.chans[at]));
    }
  }

  lemma FrozenResume(s: State, ch: nat)
    requires Inv(s) && Enabled(s, Resume) && ch < |s.chans| && s.chans[ch].closed
    ensures Frozen(s, Do(s, Resume), ch)
  {
    var k := s.rq[0];
    ResumeNet(s);
    assert RunsAt(s, ResumeStep(s), k, ch) && Tidy(s.chans[ch]);
    assert k in s.rq && Placed(s, k) && CasesOk(s, k);
    if s.cos[k].pc.Parked? { UnpostIs(s.chans, k, s.cos[k].pc.cases); }
  }

  lemma {:induction false} WakeAllKeeps(s: State, ks: seq<Co>)
    ensures WakeAll(s, ks).chans == s.chans && WakeAll(s, ks).log == s.log
    decreases |ks|
  {
    if ks != [] { WakeAllKeeps(Wake(s, ks[0]), ks[1..]); }
  }

  lemma FrozenStep(s: State, a: Action, ch: nat)
    requires Inv(s) && Enabled(s, a) && ch < |s.chans| && s.chans[ch].closed
    ensures Frozen(s, Do(s, a), ch)
  {
    match a
    case PushOp(at, v, blocked) => FrozenPush(s, at, v, blocked, ch);
    case PopOp(at, blocked) => FrozenPop(s, at, blocked, ch);
    case OfferOp(at, v) => FrozenPush(s, at, v, false, ch);
    case GrabOp(at) => FrozenPop(s, at, false, ch);
    case CloseOp(at) => FrozenClose(s, at, ch);
    case Choose => FrozenChoose(s, ch);
    case Resume => FrozenResume(s, ch);
    case PollOp(cases) => FrozenPoll(s, cases, ch);
    case SelectOp(_, _) =>
    case YieldOp =>
    case FinishOp =>
    case JoinOp(_) =>
    case EndPass =>
  }

  lemma FrozenPut(s: State, at: nat, v: Value, ch: nat)
    requires at < |s.chans| && ch < |s.chans| && at != ch
    ensures Frozen(s, ParkedPush(s, at, v), ch) && Frozen(s, LeftBehind(s, at, v), ch)
  {
    OneEvent(s.log, Event(s.running, true, at, v));
  }

  /** From the moment it is closed a channel has no waiters and gains none, takes no
      value and gives none. */
  lemma {:induction false} ClosedForGood(s: State, run: seq<Action>, s': State, ch: nat)
    requires Inv(s) && Reaches(s, run, s') && !s'.stuck && ch < |s.chans| && s.chans[ch].closed
    ensures Frozen(s, s', ch) && s'.chans[ch].w == [] && s'.chans[ch].r == []
    decreases |run|
  {
    assert Tidy(s.chans[ch]);
    if run != [] {
      FrozenStep(s, run[0], ch);
      StepInv(s, run[0]);
      ClosedForGood(Do(s, run[0]), run[1..], s', ch);
    }
  }

  // ---------- runs step by step ----------

  /** Step `i` of the run `plot` leads from one state of the story to the next. */
  ghost predicate Follows(story: nat -> State, plot: seq<Action>, i: nat) {
    i < |plot| && Enabled(story(i), plot[i]) && Do(story(i), plot[i]) == story(i + 1)
  }

  lemma {:induction false} StoryGoes(story: nat -> State, plot: seq<Action>, i: nat)
    requires i <= |plot| && forall j: nat :: j < |plot| ==> Follows(story, plot, j)
    ensures Reaches(story(i), plot[i..], story(|plot|))
    decreases |plot| - i
  {
    if i < |plot| {
      assert Follows(story, plot, i);
      StoryGoes(story, plot, i + 1);
      assert plot[i..][1..] == plot[i + 1..];
    }
  }
}
