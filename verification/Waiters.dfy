/** Who waits on a channel, in which order, and whom a step of module Scheduler
    serves. */
module Waiters {
  import opened Collections
  import opened ChannelSpec
  import opened Scheduler
  import opened SchedulerLaws
  import opened SchedulerSteps
  import opened ClosingLaws
  import opened SelectLaws
  import opened Runs

  /** Who waits to push, or to pop, first in the list first; None is a value that was
      left behind. */
  function Names(c: Channel, push: bool): seq<Option<Co>> {
    if push then WriterNames(c.w) else ReaderNames(c.r)
  }

  function WriterNames(w: seq<Writer>): seq<Option<Co>> {
    seq(|w|, i requires 0 <= i < |w| => w[i].co)
  }

  function ReaderNames(r: seq<Reader>): seq<Option<Co>> {
    seq(|r|, i requires 0 <= i < |r| => Some(r[i].co))
  }

  // ---------- what an attempt does ----------

  /** On channel `ch` exactly the coroutines `ks` were woken, and none of them is
      listed there any more; beyond that the running coroutine changed itself. */
  ghost predicate Attempted(s: State, t: State, ch: nat, ks: seq<Co>) {
    && ch < |s.chans| == |t.chans| && |t.cos| == |s.cos|
    && t.rq == s.rq + ks && t.later == s.later && (t.running == s.running || t.running == None)
    && (forall k :: k in ks ==> k < |s.cos| && s.running != Some(k))
    && forall k :: 0 <= k < |s.cos| && s.running != Some(k) ==>
         if k in ks then MadeReady(s.cos[k], t.cos[k]) && !GoneFrom(s.chans[ch], k) && GoneFrom(t.chans[ch], k) else t.cos[k] == s.cos[k]
  }

  /** Nobody waits on one channel both to push and to pop. */
  lemma OneSide(s: State, ch: nat, x: Writer, y: Reader)
    requires Net(s) && ch < |s.chans| && x in s.chans[ch].w && y in s.chans[ch].r
    ensures x.co != Some(y.co)
  {
    assert NodesOk(s, ch) && WriterOk(s, ch, x) && ReaderOk(s, ch, y);
    assert y.co < |s.cos| ==> CasesOk(s, y.co);
  }

  lemma ServedReader(s: State, ch: nat)
    requires Net(s) && ch < |s.chans| && s.chans[ch].r != []
    ensures var c := s.chans[ch]; !GoneFrom(c, c.r[0].co) && GoneFrom(c.(r := c.r[1..]), c.r[0].co)
  {
    var c := s.chans[ch];
    assert Tidy(c) && UniqueReaders(c.r) && c.r[0] in c.r;
    forall x | x in c.w ensures x.co != Some(c.r[0].co) { OneSide(s, ch, x, c.r[0]); }
  }

  lemma ServedWriter(s: State, ch: nat)
    requires Net(s) && ch < |s.chans| && s.chans[ch].w != [] && s.chans[ch].w[0].co.Some?
    ensures var c := s.chans[ch]; !GoneFrom(c, c.w[0].co.value) && GoneFrom(c.(w := c.w[1..]), c.w[0].co.value)
  {
    var c := s.chans[ch];
    assert Tidy(c) && UniqueWriters(c.w) && c.w[0] in c.w;
    forall y | y in c.r ensures c.w[0].co != Some(y.co) { OneSide(s, ch, c.w[0], y); }
  }

  lemma WriteAttempted(s: State, ch: nat, v: Value)
    requires Net(s) && ch < |s.chans| && !s.chans[ch].closed && !s.stuck && !TryWrite(s, ch, v).0.stuck
    ensures Attempted(s, TryWrite(s, ch, v).0, ch, WriteWakes(s.chans[ch])) && TryWrite(s, ch, v).0.running == s.running
  {
    WriteWoke(s, ch, v);
    WriteShape(s, ch, v);
    HeadReader(s, ch);
    if s.chans[ch].r != [] { ServedReader(s, ch); }
    WokenAre(s, TryWrite(s, ch, v).0, ch, WriteWakes(s.chans[ch]));
  }

  lemma ReadAttempted(s: State, ch: nat)
    requires Net(s) && ch < |s.chans| && !s.chans[ch].closed && !s.stuck && !TryRead(s, ch).0.stuck
    ensures Attempted(s, TryRead(s, ch).0, ch, ReadWakes(s.chans[ch])) && TryRead(s, ch).0.running == s.running
  {
    ReadWoke(s, ch);
    ReadShape(s, ch);
    HeadWriter(s, ch);
    if s.chans[ch].w != [] && s.chans[ch].w[0].co.Some? { ServedWriter(s, ch); }
    WokenAre(s, TryRead(s, ch).0, ch, ReadWakes(s.chans[ch]));
  }

  lemma WokenAre(s: State, t: State, ch: nat, ks: seq<Co>)
    requires Woke(s, t, ch, ks) && forall k :: k in ks ==> s.running != Some(k) && !GoneFrom(s.chans[ch], k) && GoneFrom(t.chans[ch], k)
    ensures Attempted(s, t, ch, ks) && t.running == s.running
  {
  }

  /** What the running coroutine does before and after the attempt. */
  ghost predicate Itself(s: State, t: State, ch: nat) {
    && ch < |s.chans| == |t.chans| && |t.cos| == |s.cos| && t.rq == s.rq && t.later == s.later
    && (t.running == s.running || t.running == None)
    && (forall k :: 0 <= k < |s.cos| && s.running != Some(k) ==> t.cos[k] == s.cos[k] && (GoneFrom(t.chans[ch], k) <==> GoneFrom(s.chans[ch], k)))
  }

  lemma AttemptedOn(s: State, b: State, w: State, t: State, ch: nat, ks: seq<Co>)
    requires Itself(s, b, ch) && b.running == s.running && Attempted(b, w, ch, ks) && w.running == b.running && Itself(w, t, ch)
    ensures Attempted(s, t, ch, ks)
  {
  }

  lemma BegunItself(s: State, ch: nat)
    requires ch < |s.chans|
    ensures Itself(s, Begun(s), ch) && Begun(s).running == s.running
  {
  }

  lemma EndedItself(s: State, result: Result, ch: nat)
    requires ch < |s.chans|
    ensures Itself(s, Ended(s, result), ch)
  {
  }

  lemma AfterPushItself(t: State, done: bool, ch: nat, v: Value, blocked: bool)
    requires ch < |t.chans|
    ensures Itself(t, AfterPush(t, done, ch, v, blocked), ch)
  {
  }

  lemma AfterOfferItself(t: State, done: bool, ch: nat, v: Value)
    requires ch < |t.chans|
    ensures var u := Ended(if done then t else LeftBehind(t, ch, v), PushDone(ch, v)); Itself(t, u, ch) && (t.stuck <==> u.stuck)
  {
  }

  lemma AfterPopItself(t: State, value: Option<Value>, ch: nat, blocked: bool)
    requires ch < |t.chans| && (blocked ==> t.running.Some?)
    ensures Itself(t, AfterPop(t, value, ch, blocked), ch)
  {
  }

  lemma PushAttempted(s: State, ch: nat, v: Value, blocked: bool)
    requires Inv(s) && Free(s) && ch < |s.chans| && !s.stuck && !s.chans[ch].closed && (blocked ==> s.running.Some?)
    requires !PushStep(s, ch, v, blocked).stuck
    ensures Attempted(s, PushStep(s, ch, v, blocked), ch, WriteWakes(s.chans[ch]))
  {
    var b := Begun(s);
    var (w, done) := TryWrite(b, ch, v);
    BegunMid(s);
    BegunItself(s, ch);
    TryKeepsRunning(b, ch, v);
    AfterPushItself(w, done, ch, v, blocked);
    if w.stuck { AfterStuck(w, done, None, ch, v, blocked); }
    WriteAttempted(b, ch, v);
    AttemptedOn(s, b, w, AfterPush(w, done, ch, v, blocked), ch, WriteWakes(s.chans[ch]));
  }

  lemma OfferAttempted(s: State, ch: nat, v: Value)
    requires Inv(s) && Free(s) && ch < |s.chans| && !s.stuck && !s.chans[ch].closed && !OfferStep(s, ch, v).stuck
    ensures Attempted(s, OfferStep(s, ch, v), ch, WriteWakes(s.chans[ch]))
  {
    var b := Begun(s);
    var (w, done) := TryWrite(b, ch, v);
    BegunMid(s);
    BegunItself(s, ch);
    TryKeepsRunning(b, ch, v);
    AfterOfferItself(w, done, ch, v);
    WriteAttempted(b, ch, v);
    AttemptedOn(s, b, w, Ended(if done then w else LeftBehind(w, ch, v), PushDone(ch, v)), ch, WriteWakes(s.chans[ch]));
  }

  lemma PopAttempted(s: State, ch: nat, blocked: bool)
    requires Inv(s) && Free(s) && ch < |s.chans| && !s.stuck && !s.chans[ch].closed && (blocked ==> s.running.Some?)
    requires !PopStep(s, ch, blocked).stuck
    ensures Attempted(s, PopStep(s, ch, blocked), ch, ReadWakes(s.chans[ch]))
  {
    var b := Begun(s);
    var (w, _, value) := TryRead(b, ch);
    BegunMid(s);
    BegunItself(s, ch);
    TryKeepsRunning(b, ch, 0);
    AfterPopItself(w, value, ch, blocked);
    if w.stuck { AfterStuck(w, true, value, ch, 0, blocked); }
    ReadAttempted(b, ch);
    AttemptedOn(s, b, w, AfterPop(w, value, ch, blocked), ch, ReadWakes(s.chans[ch]));
  }

  lemma CaseAttempted(s: State, x: Case)
    requires Net(s) && x.ch < |s.chans| && !s.stuck && !s.chans[x.ch].closed && !TryCase(s, x).stuck
    ensures Attempted(s, TryCase(s, x), x.ch, if x.Push? then WriteWakes(s.chans[x.ch]) else ReadWakes(s.chans[x.ch]))
  {
    if x.Push? {
      var (w, done) := TryWrite(s, x.ch, x.ele);
      WriteAttempted(s, x.ch, x.ele);
      EndedItself(w, Selected(x, None), x.ch);
      AttemptedOn(s, s, w, TryCase(s, x), x.ch, WriteWakes(s.chans[x.ch]));
    } else {
      var (w, done, value) := TryRead(s, x.ch);
      ReadAttempted(s, x.ch);
      EndedItself(w, Selected(x, value), x.ch);
      AttemptedOn(s, s, w, TryCase(s, x), x.ch, ReadWakes(s.chans[x.ch]));
    }
  }

  lemma CloseAttempted(s: State, ch: nat)
    requires Inv(s) && Free(s) && ch < |s.chans| && !s.stuck && !s.chans[ch].closed && !CloseStep(s, ch).stuck
    ensures Attempted(s, CloseStep(s, ch), ch, Sleepers(s.chans[ch]))
  {
    var b := Begun(s);
    var w := Closing(b, ch);
    BegunMid(s);
    BegunItself(s, ch);
    ClosingAttempted(b, ch);
    EndedItself(w, Closed, ch);
    AttemptedOn(s, b, w, CloseStep(s, ch), ch, Sleepers(s.chans[ch]));
  }

  lemma ClosingAttempted(s: State, ch: nat)
    requires Net(s) && ch < |s.chans| && !s.stuck && !s.chans[ch].closed && !Closing(s, ch).stuck
    ensures Attempted(s, Closing(s, ch), ch, Sleepers(s.chans[ch])) && Closing(s, ch).running == s.running
  {
    CloseWoke(s, ch);
    CloseKeepsPc(s, ch);
    WriterCosAre(s.chans[ch].w);
    ReaderCosAre(s.chans[ch].r);
    forall k | k in Sleepers(s.chans[ch]) ensures s.running != Some(k) { SleeperIs(s, ch, k); StaysRunning(s); }
    WokenAre(s, Closing(s, ch), ch, Sleepers(s.chans[ch]));
  }

  // ---------- whom a step changes ----------

  /** The channels on which a step makes an attempt. */
  ghost predicate Touches(s: State, a: Action, ch: nat) {
    match a
    case PushOp(at, _, _) => ch == at
    case PopOp(at, _) => ch == at
    case OfferOp(at, _) => ch == at
    case GrabOp(at) => ch == at
    case CloseOp(at) => ch == at
    case Choose => s.running.Some? && Of(s, s.running.value).pc.Choosing? && exists x :: x in Of(s, s.running.value).pc.cases && x.ch == ch
    case PollOp(cases) => exists x :: x in cases && x.ch == ch
    case _ => false
  }

  /** The step wakes `k` and takes it off a list that it was on. */
  ghost predicate WokenBy(s: State, a: Action, t: State, k: Co) {
    && k < |s.cos| == |t.cos| && MadeReady(s.cos[k], t.cos[k]) && k !in s.rq && k in t.rq
    && exists ch: nat :: ch < |s.chans| == |t.chans| && Touches(s, a, ch) && !GoneFrom(s.chans[ch], k) && GoneFrom(t.chans[ch], k)
  }

  /** What a step may do to coroutine `k`. */
  ghost predicate ChangedBy(s: State, a: Action, t: State, k: Co) {
    && k < |s.cos| == |t.cos|
    && (t.cos[k] == s.cos[k] || s.running == Some(k) || (a == Resume && s.rq != [] && s.rq[0] == k) || WokenBy(s, a, t, k))
  }

  lemma AttemptChanges(s: State, a: Action, t: State, ch: nat, ks: seq<Co>, k: Co)
    requires Net(s) && Attempted(s, t, ch, ks) && Touches(s, a, ch) && k < |s.cos|
    ensures ChangedBy(s, a, t, k)
  {
    assert Placed(s, k);
  }

  lemma PushChanges(s: State, ch: nat, v: Value, blocked: bool, k: Co)
    requires Inv(s) && Enabled(s, PushOp(ch, v, blocked)) && !PushStep(s, ch, v, blocked).stuck && k < |s.cos|
    ensures ChangedBy(s, PushOp(ch, v, blocked), PushStep(s, ch, v, blocked), k)
  {
    if !s.chans[ch].closed {
      PushAttempted(s, ch, v, blocked);
      AttemptChanges(s, PushOp(ch, v, blocked), PushStep(s, ch, v, blocked), ch, WriteWakes(s.chans[ch]), k);
    }
  }

  lemma OfferChanges(s: State, ch: nat, v: Value, k: Co)
    requires Inv(s) && Enabled(s, OfferOp(ch, v)) && !OfferStep(s, ch, v).stuck && k < |s.cos|
    ensures ChangedBy(s, OfferOp(ch, v), OfferStep(s, ch, v), k)
  {
    if !s.chans[ch].closed {
      OfferAttempted(s, ch, v);
      AttemptChanges(s, OfferOp(ch, v), OfferStep(s, ch, v), ch, WriteWakes(s.chans[ch]), k);
    }
  }

  lemma PopChanges(s: State, ch: nat, blocked: bool, a: Action, k: Co)
    requires Inv(s) && Enabled(s, PopOp(ch, blocked)) && !PopStep(s, ch, blocked).stuck && k < |s.cos|
    requires a == PopOp(ch, blocked) || a == GrabOp(ch)
    ensures ChangedBy(s, a, PopStep(s, ch, blocked), k)
  {
    if !s.chans[ch].closed {
      PopAttempted(s, ch, blocked);
      AttemptChanges(s, a, PopStep(s, ch, blocked), ch, ReadWakes(s.chans[ch]), k);
    }
  }

  lemma GrabChanges(s: State, ch: nat, k: Co)
    requires Inv(s) && Enabled(s, GrabOp(ch)) && !GrabStep(s, ch).stuck && k < |s.cos|
    ensures ChangedBy(s, GrabOp(ch), GrabStep(s, ch), k)
  {
    if !s.chans[ch].closed { PopChanges(s, ch, false, GrabOp(ch), k); }
  }

  lemma CloseChanges(s: State, ch: nat, k: Co)
    requires Inv(s) && Enabled(s, CloseOp(ch)) && !CloseStep(s, ch).stuck && k < |s.cos|
    ensures ChangedBy(s, CloseOp(ch), CloseStep(s, ch), k)
  {
    if !s.chans[ch].closed {
      CloseAttempted(s, ch);
      AttemptChanges(s, CloseOp(ch), CloseStep(s, ch), ch, Sleepers(s.chans[ch]), k);
    }
  }

  lemma CaseChanges(s: State, x: Case, a: Action, k: Co)
    requires Net(s) && x.ch < |s.chans| && !s.stuck && !TryCase(s, x).stuck && Touches(s, a, x.ch) && k < |s.cos|
    ensures ChangedBy(s, a, TryCase(s, x), k)
  {
    if !s.chans[x.ch].closed {
      CaseAttempted(s, x);
      AttemptChanges(s, a, TryCase(s, x), x.ch, if x.Push? then WriteWakes(s.chans[x.ch]) else ReadWakes(s.chans[x.ch]), k);
    }
  }

  lemma ChooseChanges(s: State, k: Co)
    requires Inv(s) && Enabled(s, Choose) && !Do(s, Choose).stuck && k < |s.cos|
    ensures ChangedBy(s, Choose, Do(s, Choose), k)
  {
    var cases := Of(s, s.running.value).pc.cases;
    var i := Available(s.chans, cases);
    if i < |cases| {
      assert cases[i] in cases;
      CaseChanges(s, cases[i], Choose, k);
    }
  }

  lemma PollChanges(s: State, cases: seq<Case>, k: Co)
    requires Inv(s) && Enabled(s, PollOp(cases)) && !PollStep(s, cases).stuck && k < |s.cos|
    ensures ChangedBy(s, PollOp(cases), PollStep(s, cases), k)
  {
    var i := Available(s.chans, cases);
    if i < |cases| {
      assert cases[i] in cases;
      CaseChanges(s, cases[i], PollOp(cases), k);
    }
  }

  lemma StepChanges(s: State, a: Action, k: Co)
    requires Inv(s) && Enabled(s, a) && !Do(s, a).stuck && k < |s.cos|
    ensures ChangedBy(s, a, Do(s, a), k)
  {
    match a
    case PushOp(ch, v, blocked) => PushChanges(s, ch, v, blocked, k);
    case PopOp(ch, blocked) => PopChanges(s, ch, blocked, a, k);
    case OfferOp(ch, v) => OfferChanges(s, ch, v, k);
    case GrabOp(ch) => GrabChanges(s, ch, k);
    case CloseOp(ch) => CloseChanges(s, ch, k);
    case Choose => ChooseChanges(s, k);
    case PollOp(cases) => PollChanges(s, cases, k);
    case Resume => ResumeChanges(s, k);
    case _ => QuietChanges(s, a, k);
  }

  lemma ResumeChanges(s: State, k: Co)
    requires Inv(s) && Enabled(s, Resume) && k < |s.cos|
    ensures ChangedBy(s, Resume, ResumeStep(s), k)
  {
  }

  lemma QuietChanges(s: State, a: Action, k: Co)
    requires Inv(s) && Enabled(s, a) && k < |s.cos|
    requires a.SelectOp? || a.YieldOp? || a.FinishOp? || a.JoinOp? || a.EndPass?
    ensures ChangedBy(s, a, Do(s, a), k)
  {
  }

  /** A step changes no coroutine but the one that runs or is resumed, and those that
      it wakes; these waited, and the list that led to them does not lead to them
      again. */
  lemma OnlyWokenChange(s: State, run: seq<Action>, s': State, a: Action, k: Co)
    requires Init(s) && Reaches(s, run, s') && Enabled(s', a) && !Do(s', a).stuck && k < |s'.cos|
    ensures ChangedBy(s', a, Do(s', a), k)
  {
    InitInv(s);
    RunInv(s, run, s');
    StepChanges(s', a, k);
  }
}
