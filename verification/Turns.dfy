/** In which order the coroutines of module Scheduler get their turns. */
module Turns {
  import opened Collections
  import opened ChannelSpec
  import Q = ReadyQueue
  import opened Scheduler
  import opened SchedulerLaws
  import opened SchedulerSteps
  import opened ClosingLaws
  import opened SelectLaws
  import opened Runs
  import opened Waiters
  import opened WaitOrder

  /** Everyone who is to run, in order: first the queue, then those that yielded. */
  function Line(s: State): seq<Co> {
    s.rq + s.later
  }

  lemma LineDistinct(s: State)
    requires Net(s)
    ensures Distinct(Line(s))
  {
    forall k | k in s.later ensures k !in s.rq { assert Placed(s, k); }
    Q.Joined(s.rq, s.later);
  }

  /** The step queues the coroutines `ks` last, each of which it woke. */
  ghost predicate Calls(s: State, a: Action, t: State, ks: seq<Co>) {
    t.rq == s.rq + ks && t.later == s.later && forall k :: k in ks ==> WokenBy(s, a, t, k)
  }

  lemma AttemptCalls(s: State, a: Action, t: State, ch: nat, ks: seq<Co>)
    requires Net(s) && Attempted(s, t, ch, ks) && Touches(s, a, ch)
    ensures Calls(s, a, t, ks)
  {
    forall k | k in ks ensures WokenBy(s, a, t, k) { assert Placed(s, k); }
  }

  lemma CaseCalls(s: State, a: Action, x: Case) returns (ks: seq<Co>)
    requires Net(s) && x.ch < |s.chans| && !s.stuck && !TryCase(s, x).stuck && Touches(s, a, x.ch)
    ensures Calls(s, a, TryCase(s, x), ks)
  {
    ks := [];
    if s.chans[x.ch].closed {
      assert s.rq + ks == s.rq;
    } else {
      ks := if x.Push? then WriteWakes(s.chans[x.ch]) else ReadWakes(s.chans[x.ch]);
      CaseAttempted(s, x);
      AttemptCalls(s, a, TryCase(s, x), x.ch, ks);
    }
  }

  lemma ChooseCalls(s: State) returns (ks: seq<Co>)
    requires Inv(s) && Enabled(s, Choose) && !Do(s, Choose).stuck
    ensures Calls(s, Choose, Do(s, Choose), ks)
  {
    var cases := Of(s, s.running.value).pc.cases;
    var i := Available(s.chans, cases);
    if i < |cases| {
      assert cases[i] in cases;
      ks := CaseCalls(s, Choose, cases[i]);
    } else {
      ks := [];
      assert s.rq + ks == s.rq;
    }
  }

  lemma PollCalls(s: State, cases: seq<Case>) returns (ks: seq<Co>)
    requires Inv(s) && Enabled(s, PollOp(cases)) && !PollStep(s, cases).stuck
    ensures Calls(s, PollOp(cases), PollStep(s, cases), ks)
  {
    var i := Available(s.chans, cases);
    if i < |cases| {
      assert cases[i] in cases;
      ks := CaseCalls(s, PollOp(cases), cases[i]);
    } else {
      ks := [];
      assert s.rq + ks == s.rq;
    }
  }

  /** An operation on a channel, if that is closed. */
  lemma RefusedCalls(s: State, a: Action, result: Result)
    ensures Calls(s, a, Ended(Begun(s), result), [])
  {
    assert s.rq + [] == s.rq;
  }

  lemma OperationCalls(s: State, a: Action) returns (ks: seq<Co>)
    requires Inv(s) && Enabled(s, a) && !Do(s, a).stuck && (a.PushOp? || a.PopOp? || a.OfferOp? || a.GrabOp? || a.CloseOp?)
    ensures Calls(s, a, Do(s, a), ks)
  {
    if s.chans[a.ch].closed {
      ks := [];
      RefusedCalls(s, a, PushClosed);
      RefusedCalls(s, a, PopNull);
      RefusedCalls(s, a, PopFailed);
      RefusedCalls(s, a, Closed);
      return;
    }
    match a {
      case PushOp(ch, v, blocked) => ks := WriteWakes(s.chans[ch]); PushAttempted(s, ch, v, blocked);
      case OfferOp(ch, v) => ks := WriteWakes(s.chans[ch]); OfferAttempted(s, ch, v);
      case PopOp(ch, blocked) => ks := ReadWakes(s.chans[ch]); PopAttempted(s, ch, blocked);
      case GrabOp(ch) => ks := ReadWakes(s.chans[ch]); PopAttempted(s, ch, false);
      case CloseOp(ch) => ks := Sleepers(s.chans[ch]); CloseAttempted(s, ch);
    }
    AttemptCalls(s, a, Do(s, a), a.ch, ks);
  }

  /** What a step does to the line. */
  ghost predicate Relined(s: State, a: Action, t: State) {
    match a
    case Resume => s.rq != [] && t.rq == s.rq[1..] && t.later == s.later && t.running == Some(s.rq[0])
    case EndPass => s.rq == [] && t.rq == s.later && t.later == []
    case YieldOp => s.running.Some? && t.rq == s.rq && t.later == s.later + [s.running.value]
    case JoinOp(co) => t.later == s.later && t.rq == if co in s.rq then s.rq else s.rq + [co]
    case _ => t.later == s.later && exists ks :: t.rq == s.rq + ks && forall k :: k in ks ==> WokenBy(s, a, t, k)
  }

  /** Resuming takes the first, a yield goes last, the end of a pass queues those that
      yielded in order, and whoever is joined or woken goes behind the queue. */
  lemma StepLine(s: State, a: Action)
    requires Inv(s) && Enabled(s, a) && !Do(s, a).stuck
    ensures Relined(s, a, Do(s, a))
  {
    match a
    case Resume => ResumeNet(s); ResumeLine(s);
    case EndPass => EndPassInv(s);
    case YieldOp => StaysRunning(s);
    case JoinOp(co) =>
    case Choose => var ks := ChooseCalls(s);
    case PollOp(cases) => var ks := PollCalls(s, cases);
    case SelectOp(_, _) => assert s.rq + [] == s.rq;
    case FinishOp => assert s.rq + [] == s.rq;
    case _ => var ks := OperationCalls(s, a);
  }

  lemma ResumeLine(s: State)
    requires Inv(s) && Enabled(s, Resume)
    ensures ResumeStep(s).rq == s.rq[1..] && ResumeStep(s).later == s.later
  {
    assert s.rq[0] in s.rq;
  }

  lemma AheadAround(p: seq<Co>, m: seq<Co>, q: seq<Co>, x: Co, y: Co)
    requires Ahead(p + q, x, y)
    ensures Ahead(p + m + q, x, y)
  {
    var i, j :| 0 <= i < j < |p + q| && (p + q)[i] == x && (p + q)[j] == y;
    var i', j' := if i < |p| then i else i + |m|, if j < |p| then j else j + |m|;
    assert (p + m + q)[i'] == x && (p + m + q)[j'] == y;
  }

  lemma LineStep(s: State, a: Action, t: State, x: Co, y: Co)
    requires Relined(s, a, t) && Distinct(Line(s)) && Ahead(Line(s), x, y) && !(a == Resume && s.rq[0] == x)
    ensures Ahead(Line(t), x, y) && !(a == Resume && s.rq[0] == y)
  {
    var i, j :| 0 <= i < j < |Line(s)| && Line(s)[i] == x && Line(s)[j] == y;
    match a
    case Resume =>
      assert Line(t) == Line(s)[1..] && Line(s)[0] == s.rq[0];
      assert Line(t)[i - 1] == x && Line(t)[j - 1] == y;
    case EndPass => assert Line(t) == Line(s);
    case YieldOp =>
      assert Line(t) == Line(s) + [s.running.value];
      AheadBefore(Line(s), [s.running.value], x, y);
    case JoinOp(co) => AheadAround(s.rq, [co], s.later, x, y);
    case _ =>
      var ks :| t.rq == s.rq + ks && forall k :: k in ks ==> WokenBy(s, a, t, k);
      AheadAround(s.rq, ks, s.later, x, y);
  }

  /** Whoever is ahead in the line is resumed first, in every run. */
  lemma {:induction false} TurnsInOrder(s: State, run: seq<Action>, s': State, x: Co, y: Co)
    requires Inv(s) && Reaches(s, run, s') && !s'.stuck && Ahead(Line(s), x, y) && NeverResumed(s, run, x)
    ensures Ahead(Line(s'), x, y) && NeverResumed(s, run, y)
    decreases |run|
  {
    if run != [] {
      var t := Do(s, run[0]);
      NotStuckBefore(t, run[1..], s');
      LineDistinct(s);
      StepLine(s, run[0]);
      LineStep(s, run[0], t, x, y);
      StepInv(s, run[0]);
      TurnsInOrder(t, run[1..], s', x, y);
    }
  }

  /** A coroutine that yields is not resumed before all those that were to run when it
      did. */
  lemma YieldIsFair(s: State, run: seq<Action>, s1: State, me: Co, x: Co, more: seq<Action>, s2: State)
    requires Init(s) && Reaches(s, run, s1) && Enabled(s1, YieldOp) && s1.running == Some(me) && x in Line(s1)
    requires Reaches(Yielded(s1), more, s2) && !s2.stuck && NeverResumed(Yielded(s1), more, x)
    ensures NeverResumed(Yielded(s1), more, me)
  {
    var t := Yielded(s1);
    InitInv(s);
    RunInv(s, run, s1);
    NotStuckBefore(t, more, s2);
    StepInv(s1, YieldOp);
    StepLine(s1, YieldOp);
    assert Line(t) == Line(s1) + [me];
    AheadAcross(Line(s1), [me], x, me);
    TurnsInOrder(t, more, s2, x, me);
  }

  /** A coroutine that has finished is never changed again, and never resumed. */
  lemma {:induction false} StaysFinished(s: State, run: seq<Action>, s': State, k: Co)
    requires Inv(s) && Reaches(s, run, s') && !s'.stuck && k < |s.cos| && s.cos[k].status.Terminated?
    ensures NeverResumed(s, run, k) && k < |s'.cos| && s'.cos[k] == s.cos[k]
    decreases |run|
  {
    if run != [] {
      var t := Do(s, run[0]);
      NotStuckBefore(t, run[1..], s');
      StepInv(s, run[0]);
      FinishedStep(s, run[0], k);
      StaysFinished(t, run[1..], s', k);
    }
  }

  lemma FinishedStep(s: State, a: Action, k: Co)
    requires Inv(s) && Enabled(s, a) && !Do(s, a).stuck && k < |s.cos| && s.cos[k].status.Terminated?
    ensures !(a == Resume && s.rq[0] == k) && k < |Do(s, a).cos| && Do(s, a).cos[k] == s.cos[k]
  {
    StepChanges(s, a, k);
    assert Placed(s, k);
    if a == Resume { assert s.rq[0] in s.rq; }
  }

  lemma FinishesForGood(s: State, run: seq<Action>, s1: State, me: Co, more: seq<Action>, s2: State)
    requires Init(s) && Reaches(s, run, s1) && Enabled(s1, FinishOp) && s1.running == Some(me)
    requires Reaches(Finished(s1), more, s2) && !s2.stuck
    ensures NeverResumed(Finished(s1), more, me) && me < |s2.cos| && s2.cos[me].status.Terminated?
  {
    InitInv(s);
    RunInv(s, run, s1);
    StaysRunning(s1);
    NotStuckBefore(Finished(s1), more, s2);
    StepInv(s1, FinishOp);
    StaysFinished(Finished(s1), more, s2, me);
  }

  /** All that wait on the channel, writers before readers, and each from the front of
      its list. */
  ghost predicate InClosingOrder(c: Channel, ks: seq<Co>) {
    && Distinct(ks) && (forall k :: k in ks <==> !GoneFrom(c, k))
    && (forall i, j :: 0 <= i < j < |c.w| && c.w[i].co.Some? && c.w[j].co.Some? ==> Ahead(ks, c.w[i].co.value, c.w[j].co.value))
    && (forall i, j :: 0 <= i < j < |c.r| ==> Ahead(ks, c.r[i].co, c.r[j].co))
    && (forall i, j :: 0 <= i < |c.w| && 0 <= j < |c.r| && c.w[i].co.Some? ==> Ahead(ks, c.w[i].co.value, c.r[j].co))
  }

  /** A close that goes through queues them in this order, behind everyone else. */
  lemma ClosesInOrder(s: State, ch: nat) returns (ks: seq<Co>)
    requires Inv(s) && Enabled(s, CloseOp(ch)) && !CloseStep(s, ch).stuck && !s.chans[ch].closed
    ensures InClosingOrder(s.chans[ch], ks) && CloseStep(s, ch).rq == s.rq + ks && CloseStep(s, ch).later == s.later
  {
    ks := Sleepers(s.chans[ch]);
    CloseAttempted(s, ch);
    SleepersDistinct(s, ch);
    SleepersInOrder(s.chans[ch]);
    WriterCosAre(s.chans[ch].w);
    ReaderCosAre(s.chans[ch].r);
  }
}
