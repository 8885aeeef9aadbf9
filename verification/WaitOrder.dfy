/** In which order the waiters of a channel are served, in all runs of module
    Scheduler. */
module WaitOrder {
  import opened Collections
  import opened ChannelSpec
  import opened Scheduler
  import opened SchedulerLaws
  import opened SchedulerSteps
  import opened SelectLaws
  import opened Runs
  import opened Waiters

  // ---------- what a step does to a list ----------

  predicate Attempts(a: Action) {
    a.PushOp? || a.PopOp? || a.OfferOp? || a.GrabOp? || a.Choose? || a.PollOp?
  }

  /** A step leaves a list as it is, takes its first waiter off, or puts a waiter in
      front of it; a close empties it, and a resumed coroutine takes its own back. */
  ghost predicate Relisted(s: State, a: Action, ch: nat, q: seq<Option<Co>>, q': seq<Option<Co>>) {
    || q' == q
    || (Attempts(a) && q != [] && q' == q[1..])
    || (a.OfferOp? && q' == [None] + q)
    || (Attempts(a) && s.running.Some? && q' == [s.running] + q)
    || (a == CloseOp(ch) && q' == [])
    || (a == Resume && s.rq != [] && q' == Others(q, Some(s.rq[0])))
  }

  ghost predicate RelistedAt(s: State, a: Action, t: State, ch: nat) {
    ch < |s.chans| == |t.chans| && forall push :: Relisted(s, a, ch, Names(s.chans[ch], push), Names(t.chans[ch], push))
  }

  /** The lists of a channel change like this when an attempt is made on it. */
  ghost predicate ListsOf(c: Channel, c': Channel, x: Option<Writer>, y: Option<Reader>) {
    && (c'.w == c.w || (c.w != [] && c'.w == c.w[1..]) || (x.Some? && c'.w == [x.value] + c.w))
    && (c'.r == c.r || (c.r != [] && c'.r == c.r[1..]) || (y.Some? && c'.r == [y.value] + c.r))
  }

  lemma NamesOf(s: State, a: Action, t: State, ch: nat, x: Option<Writer>, y: Option<Reader>)
    requires ch < |s.chans| == |t.chans| && Attempts(a) && ListsOf(s.chans[ch], t.chans[ch], x, y)
    requires x.Some? ==> (a.OfferOp? && x.value.co == None) || (s.running.Some? && x.value.co == s.running)
    requires y.Some? ==> s.running == Some(y.value.co)
    ensures RelistedAt(s, a, t, ch)
  {
    var c, c' := s.chans[ch], t.chans[ch];
    forall push ensures Relisted(s, a, ch, Names(c, push), Names(c', push)) {
      if push && c.w != [] && c'.w == c.w[1..] {
        assert Names(c', true) == Names(c, true)[1..];
      } else if push && x.Some? && c'.w == [x.value] + c.w {
        assert Names(c', true) == [x.value.co] + Names(c, true);
      } else if !push && c.r != [] && c'.r == c.r[1..] {
        assert Names(c', false) == Names(c, false)[1..];
      } else if !push && y.Some? && c'.r == [y.value] + c.r {
        assert Names(c', false) == [Some(y.value.co)] + Names(c, false);
      }
    }
  }

  lemma AfterPushLists(t: State, done: bool, ch: nat, v: Value, blocked: bool)
    requires ch < |t.chans|
    ensures var u := AfterPush(t, done, ch, v, blocked);
      u.chans == if done || !blocked then t.chans else t.chans[ch := t.chans[ch].(w := [Writer(t.running, v, false)] + t.chans[ch].w)]
  {
  }

  lemma AfterPopLists(t: State, value: Option<Value>, ch: nat, blocked: bool)
    requires ch < |t.chans| && (blocked ==> t.running.Some?)
    ensures var u := AfterPop(t, value, ch, blocked);
      u.chans == if value.Some? || !blocked then t.chans else t.chans[ch := t.chans[ch].(r := [Reader(t.running.value, false)] + t.chans[ch].r)]
  {
  }

  lemma PushLists(s: State, ch: nat, v: Value, blocked: bool)
    requires ch < |s.chans| && (blocked ==> s.running.Some?)
    ensures var t := PushStep(s, ch, v, blocked); OnlyAt(s, t, ch) && ListsOf(s.chans[ch], t.chans[ch], if blocked then Some(Writer(s.running, v, false)) else None, None)
  {
    if !s.chans[ch].closed {
      var (w, done) := TryWrite(Begun(s), ch, v);
      WriteShape(Begun(s), ch, v);
      TryKeepsRunning(Begun(s), ch, v);
      AfterPushLists(w, done, ch, v, blocked);
    }
  }

  lemma OfferLists(s: State, ch: nat, v: Value)
    requires ch < |s.chans|
    ensures var t := OfferStep(s, ch, v); OnlyAt(s, t, ch) && ListsOf(s.chans[ch], t.chans[ch], Some(Writer(None, v, false)), None)
  {
    if !s.chans[ch].closed {
      WriteShape(Begun(s), ch, v);
      TryKeepsRunning(Begun(s), ch, v);
    }
  }

  lemma PopLists(s: State, ch: nat, blocked: bool)
    requires ch < |s.chans| && (blocked ==> s.running.Some?)
    ensures var t := PopStep(s, ch, blocked); OnlyAt(s, t, ch) && ListsOf(s.chans[ch], t.chans[ch], None, if blocked then Some(Reader(s.running.value, false)) else None)
  {
    if !s.chans[ch].closed {
      var (w, _, value) := TryRead(Begun(s), ch);
      ReadShape(Begun(s), ch);
      TryKeepsRunning(Begun(s), ch, 0);
      AfterPopLists(w, value, ch, blocked);
    }
  }

  lemma CaseLists(s: State, x: Case)
    requires x.ch < |s.chans|
    ensures OnlyAt(s, TryCase(s, x), x.ch) && ListsOf(s.chans[x.ch], TryCase(s, x).chans[x.ch], None, None)
  {
    if !s.chans[x.ch].closed {
      if x.Push? { WriteShape(s, x.ch, x.ele); } else { ReadShape(s, x.ch); }
    }
  }

  lemma ParkLists(s: State, me: Co, cases: seq<Case>, ch: nat)
    requires s.running == Some(me) && DistinctCases(s, cases) && ch < |s.chans|
    ensures var t := ParkedSelect(s, me, cases); |t.chans| == |s.chans|
    ensures var t := ParkedSelect(s, me, cases);
      t.chans[ch] == s.chans[ch] || exists x :: x in cases && x.ch == ch && t.chans[ch] == PostOne(s.chans[ch], me, x)
  {
    PostIs(s.chans, me, cases);
    if i :| 0 <= i < |cases| && cases[i].ch == ch {
      assert cases[i] in cases;
    }
  }

  lemma ChooseLists(s: State, ch: nat)
    requires Inv(s) && Enabled(s, Choose) && ch < |s.chans|
    ensures RelistedAt(s, Choose, Do(s, Choose), ch)
  {
    var me, pc := s.running.value, Of(s, s.running.value).pc;
    var t := Do(s, Choose);
    var i := Available(s.chans, pc.cases);
    if i < |pc.cases| {
      CaseLists(s, pc.cases[i]);
      NamesOf(s, Choose, t, ch, None, None);
    } else if !pc.blocked {
      NamesOf(s, Choose, t, ch, None, None);
    } else {
      ParkLists(s, me, pc.cases, ch);
      PostedNames(s, me, pc.cases, t, ch);
    }
  }

  lemma PostedNames(s: State, me: Co, cases: seq<Case>, t: State, ch: nat)
    requires s.running == Some(me) && ch < |s.chans| == |t.chans|
    requires t.chans[ch] == s.chans[ch] || exists x :: x in cases && x.ch == ch && t.chans[ch] == PostOne(s.chans[ch], me, x)
    ensures RelistedAt(s, Choose, t, ch)
  {
    if t.chans[ch] == s.chans[ch] {
      NamesOf(s, Choose, t, ch, None, None);
    } else {
      var x :| x in cases && x.ch == ch && t.chans[ch] == PostOne(s.chans[ch], me, x);
      NamesOf(s, Choose, t, ch, Some(Writer(Some(me), if x.Push? then x.ele else 0, true)), Some(Reader(me, true)));
    }
  }

  lemma {:induction false} WritersLeft(w: seq<Writer>, k: Co)
    ensures WriterNames(WritersWithout(w, k)) == Others(WriterNames(w), Some(k))
  {
    if w != [] {
      WritersLeft(w[1..], k);
      assert WriterNames(w)[1..] == WriterNames(w[1..]);
      assert WriterNames([w[0]] + WritersWithout(w[1..], k)) == [w[0].co] + WriterNames(WritersWithout(w[1..], k));
    }
  }

  lemma {:induction false} ReadersLeft(r: seq<Reader>, k: Co)
    ensures ReaderNames(ReadersWithout(r, k)) == Others(ReaderNames(r), Some(k))
  {
    if r != [] {
      ReadersLeft(r[1..], k);
      assert ReaderNames(r)[1..] == ReaderNames(r[1..]);
      assert ReaderNames([r[0]] + ReadersWithout(r[1..], k)) == [Some(r[0].co)] + ReaderNames(ReadersWithout(r[1..], k));
    }
  }

  lemma ResumeLists(s: State, ch: nat)
    requires Inv(s) && Enabled(s, Resume) && ch < |s.chans|
    ensures RelistedAt(s, Resume, ResumeStep(s), ch)
  {
    var k, t := s.rq[0], ResumeStep(s);
    assert k in s.rq && Placed(s, k) && CasesOk(s, k);
    WritersLeft(s.chans[ch].w, k);
    ReadersLeft(s.chans[ch].r, k);
    if s.cos[k].pc.Parked? {
      UnpostIs(s.chans, k, s.cos[k].pc.cases);
      if i :| 0 <= i < |s.cos[k].pc.cases| && s.cos[k].pc.cases[i].ch == ch {
        assert t.chans[ch] == UnpostOne(s.chans[ch], k, s.cos[k].pc.cases[i]);
      }
    }
  }

  lemma CloseLists(s: State, at: nat, ch: nat)
    requires Enabled(s, CloseOp(at)) && ch < |s.chans|
    ensures RelistedAt(s, CloseOp(at), CloseStep(s, at), ch)
  {
    if !s.chans[at].closed {
      WakeAllKeeps(Begun(s).(chans := s.chans[at := Shut(s.chans[at])]), Sleepers(s.chans[at]));
    }
  }

  /** A step treats every list like that. */
  lemma StepLists(s: State, a: Action, ch: nat)
    requires Inv(s) && Enabled(s, a) && ch < |s.chans|
    ensures RelistedAt(s, a, Do(s, a), ch)
  {
    var t := Do(s, a);
    match a
    case PushOp(at, v, blocked) =>
      PushLists(s, at, v, blocked);
      NamesOf(s, a, t, ch, if blocked then Some(Writer(s.running, v, false)) else None, None);
    case OfferOp(at, v) =>
      OfferLists(s, at, v);
      NamesOf(s, a, t, ch, Some(Writer(None, v, false)), None);
    case PopOp(at, blocked) =>
      PopLists(s, at, blocked);
      NamesOf(s, a, t, ch, None, if blocked then Some(Reader(s.running.value, false)) else None);
    case GrabOp(at) =>
      GrabLists(s, at, ch);
    case CloseOp(at) => CloseLists(s, at, ch);
    case Choose => ChooseLists(s, ch);
    case PollOp(cases) => PollLists(s, cases, ch);
    case Resume => ResumeLists(s, ch);
    case _ =>
  }

  lemma GrabLists(s: State, at: nat, ch: nat)
    requires Enabled(s, GrabOp(at)) && ch < |s.chans|
    ensures RelistedAt(s, GrabOp(at), GrabStep(s, at), ch)
  {
    PopLists(s, at, false);
    NamesOf(s, GrabOp(at), GrabStep(s, at), ch, None, None);
  }

  lemma PollLists(s: State, cases: seq<Case>, ch: nat)
    requires Enabled(s, PollOp(cases)) && ch < |s.chans|
    ensures RelistedAt(s, PollOp(cases), PollStep(s, cases), ch)
  {
    var i := Available(s.chans, cases);
    if i < |cases| { CaseLists(s, cases[i]); }
    NamesOf(s, PollOp(cases), PollStep(s, cases), ch, None, None);
  }

  // ---------- newest first ----------

  ghost predicate Listed(s: State, ch: nat, push: bool, k: Co) {
    ch < |s.chans| && Some(k) in Names(s.chans[ch], push)
  }

  /** `k` is listed there in every state of the run. */
  ghost predicate ListedAllAlong(s: State, run: seq<Action>, ch: nat, push: bool, k: Co)
    decreases |run|
  {
    Listed(s, ch, push, k) && (run != [] ==> Enabled(s, run[0]) && ListedAllAlong(Do(s, run[0]), run[1..], ch, push, k))
  }

  /** The run does not resume `k`. */
  ghost predicate NeverResumed(s: State, run: seq<Action>, k: Co)
    decreases |run|
  {
    run != [] ==> Enabled(s, run[0]) && !(run[0] == Resume && s.rq[0] == k) && NeverResumed(Do(s, run[0]), run[1..], k)
  }

  ghost predicate UniqueNames(q: seq<Option<Co>>) {
    forall i, j :: 0 <= i < j < |q| && q[i].Some? ==> q[i] != q[j]
  }

  lemma NamesUnique(s: State, ch: nat, push: bool)
    requires Net(s) && ch < |s.chans|
    ensures UniqueNames(Names(s.chans[ch], push))
  {
    var c := s.chans[ch];
    assert Tidy(c);
    var q := Names(c, push);
    forall i, j | 0 <= i < j < |q| && q[i].Some? ensures q[i] != q[j] {
      if push { WriterOnce(c.w, i, j); } else { ReaderOnce(c.r, i, j); }
    }
  }

  lemma AheadStep(s: State, a: Action, ch: nat, q: seq<Option<Co>>, q': seq<Option<Co>>, x: Co, y: Co)
    requires Relisted(s, a, ch, q, q') && UniqueNames(q) && Ahead(q, Some(x), Some(y)) && Some(x) in q'
    requires !(a == Resume && s.rq != [] && s.rq[0] == y)
    ensures Ahead(q', Some(x), Some(y))
  {
    var i, j :| 0 <= i < j < |q| && q[i] == Some(x) && q[j] == Some(y);
    if q' == q {
    } else if q != [] && q' == q[1..] {
      assert i > 0;
      assert q'[i - 1] == Some(x) && q'[j - 1] == Some(y);
    } else if q' == [None] + q {
      AheadBehind([None], q, Some(x), Some(y));
    } else if s.running.Some? && q' == [s.running] + q {
      AheadBehind([s.running], q, Some(x), Some(y));
    } else if a == Resume {
      OthersAre(q, Some(s.rq[0]));
      OthersAhead(q, Some(s.rq[0]), i, j);
    }
  }

  lemma {:induction false} StaysAhead(s: State, run: seq<Action>, s': State, ch: nat, push: bool, x: Co, y: Co)
    requires Inv(s) && Reaches(s, run, s') && !s'.stuck && ch < |s.chans| && Ahead(Names(s.chans[ch], push), Some(x), Some(y))
    requires ListedAllAlong(s, run, ch, push, x) && NeverResumed(s, run, y)
    ensures ch < |s'.chans| && Ahead(Names(s'.chans[ch], push), Some(x), Some(y))
    decreases |run|
  {
    if run != [] {
      var t := Do(s, run[0]);
      StepInv(s, run[0]);
      StepLists(s, run[0], ch);
      NamesUnique(s, ch, push);
      AheadStep(s, run[0], ch, Names(s.chans[ch], push), Names(t.chans[ch], push), x, y);
      StaysAhead(t, run[1..], s', ch, push, x, y);
    }
  }

  lemma RunningOff(s: State, k: Co, ch: nat, push: bool)
    requires Net(s) && s.running == Some(k) && ch < |s.chans|
    ensures Some(k) !in Names(s.chans[ch], push)
  {
    assert NodesOk(s, ch);
    var c := s.chans[ch];
    StaysRunning(s);
    forall i | 0 <= i < |c.w| ensures c.w[i].co != Some(k) { assert WriterOk(s, ch, c.w[i]); }
    forall i | 0 <= i < |c.r| ensures c.r[i].co != k { assert ReaderOk(s, ch, c.r[i]); }
  }

  /** A step that puts the running coroutine on a list puts it in front. */
  lemma JoinsInFront(s: State, a: Action, k: Co, ch: nat, push: bool)
    requires Inv(s) && Enabled(s, a) && s.running == Some(k) && ch < |s.chans| && Listed(Do(s, a), ch, push, k)
    ensures Names(Do(s, a).chans[ch], push) == [Some(k)] + Names(s.chans[ch], push)
  {
    StepLists(s, a, ch);
    RunningOff(s, k, ch, push);
    NewInFront(s, a, k, ch, Names(s.chans[ch], push), Names(Do(s, a).chans[ch], push));
  }

  lemma NewInFront(s: State, a: Action, k: Co, ch: nat, q: seq<Option<Co>>, q': seq<Option<Co>>)
    requires Relisted(s, a, ch, q, q') && a != Resume && s.running == Some(k) && Some(k) in q' && Some(k) !in q
    ensures q' == [Some(k)] + q
  {
    assert q != [] ==> q == [q[0]] + q[1..];
  }

  /** Whoever waits already when `k` comes to wait on the same side of a channel stands
      behind it, and is not served as long as `k` waits there: it stays listed until
      it is resumed, from another wait. */
  lemma NewestFirst(s: State, run: seq<Action>, s1: State, a: Action, k: Co, j: Co, ch: nat, push: bool, more: seq<Action>, s2: State)
    requires Init(s) && Reaches(s, run, s1) && Enabled(s1, a) && s1.running == Some(k)
    requires Listed(s1, ch, push, j) && Reaches(Do(s1, a), more, s2) && !s2.stuck
    requires ListedAllAlong(Do(s1, a), more, ch, push, k) && NeverResumed(Do(s1, a), more, j)
    ensures ch < |s2.chans| && Ahead(Names(s2.chans[ch], push), Some(k), Some(j))
  {
    InitInv(s);
    RunInv(s, run, s1);
    JoinsInFront(s1, a, k, ch, push);
    AheadAcross([Some(k)], Names(s1.chans[ch], push), Some(k), Some(j));
    NotStuckBefore(Do(s1, a), more, s2);
    StepInv(s1, a);
    StaysAhead(Do(s1, a), more, s2, ch, push, k, j);
  }

  lemma NotStuckBefore(s: State, run: seq<Action>, s': State)
    requires Reaches(s, run, s') && !s'.stuck
    ensures !s.stuck
  {
  }

  // ---------- served once ----------

  lemma OffBothIff(c: Channel, k: Co)
    ensures GoneFrom(c, k) <==> Some(k) !in Names(c, true) && Some(k) !in Names(c, false)
  {
    if x :| x in c.w && x.co == Some(k) {
      var i :| 0 <= i < |c.w| && c.w[i] == x;
      assert Names(c, true)[i] == Some(k);
    }
    if y :| y in c.r && y.co == k {
      var i :| 0 <= i < |c.r| && c.r[i] == y;
      assert Names(c, false)[i] == Some(k);
    }
  }

  /** Only resuming makes another coroutine run. */
  lemma RunsNext(s: State, a: Action, k: Co)
    requires Inv(s) && Enabled(s, a) && !Do(s, a).stuck && k < |s.cos| && s.running != Some(k)
    requires !(a == Resume && s.rq[0] == k)
    ensures k < |Do(s, a).cos| && Do(s, a).running != Some(k)
  {
    StepInv(s, a);
    StepChanges(s, a, k);
    StaysRunning(Do(s, a));
    assert Placed(s, k);
  }

  lemma StaysOffStep(s: State, a: Action, ch: nat, k: Co)
    requires Inv(s) && Enabled(s, a) && !Do(s, a).stuck && ch < |s.chans| && GoneFrom(s.chans[ch], k) && k < |s.cos| && s.running != Some(k)
    requires !(a == Resume && s.rq[0] == k)
    ensures ch < |Do(s, a).chans| && GoneFrom(Do(s, a).chans[ch], k) && k < |Do(s, a).cos| && Do(s, a).running != Some(k)
  {
    StepLists(s, a, ch);
    OffBothIff(s.chans[ch], k);
    OffBothIff(Do(s, a).chans[ch], k);
    forall push ensures Some(k) !in Names(Do(s, a).chans[ch], push) {
      var q := Names(s.chans[ch], push);
      if a == Resume { OthersAre(q, Some(s.rq[0])); }
      assert Relisted(s, a, ch, q, Names(Do(s, a).chans[ch], push));
      assert forall u :: u in q[..] ==> u in q;
    }
    RunsNext(s, a, k);
  }

  lemma {:induction false} StaysOff(s: State, run: seq<Action>, s': State, ch: nat, k: Co)
    requires Inv(s) && Reaches(s, run, s') && !s'.stuck && NeverResumed(s, run, k)
    requires ch < |s.chans| && GoneFrom(s.chans[ch], k) && k < |s.cos| && s.running != Some(k)
    ensures ch < |s'.chans| && GoneFrom(s'.chans[ch], k)
    decreases |run|
  {
    if run != [] {
      NotStuckBefore(Do(s, run[0]), run[1..], s');
      StaysOffStep(s, run[0], ch, k);
      StepInv(s, run[0]);
      StaysOff(Do(s, run[0]), run[1..], s', ch, k);
    }
  }

  /** A waiter serves once: a coroutine that is woken goes off the list that led to it,
      and is not on it again before it has run. */
  lemma ServedOnce(s: State, run: seq<Action>, s1: State, a: Action, k: Co, more: seq<Action>, s2: State)
    requires Init(s) && Reaches(s, run, s1) && Enabled(s1, a) && k < |s1.cos| == |Do(s1, a).cos|
    requires s1.cos[k].status.Waiting? && Do(s1, a).cos[k].status.Ready?
    requires Reaches(Do(s1, a), more, s2) && !s2.stuck && NeverResumed(Do(s1, a), more, k)
    ensures exists ch: nat :: ch < |s1.chans| && Touches(s1, a, ch) && !GoneFrom(s1.chans[ch], k) && ch < |s2.chans| && GoneFrom(s2.chans[ch], k)
  {
    var t := Do(s1, a);
    InitInv(s);
    RunInv(s, run, s1);
    NotStuckBefore(t, more, s2);
    StepChanges(s1, a, k);
    StepInv(s1, a);
    assert Placed(s1, k) && Placed(t, k);
    WokenNotResumed(s1, a, k);
    var ch: nat :| ch < |s1.chans| == |t.chans| && Touches(s1, a, ch) && !GoneFrom(s1.chans[ch], k) && GoneFrom(t.chans[ch], k);
    StaysOff(t, more, s2, ch, k);
  }

  lemma WokenNotResumed(s: State, a: Action, k: Co)
    requires Inv(s) && Enabled(s, a) && !Do(s, a).stuck && k < |s.cos| == |Do(s, a).cos| && ChangedBy(s, a, Do(s, a), k)
    requires s.cos[k].status.Waiting? && Do(s, a).cos[k].status.Ready?
    ensures WokenBy(s, a, Do(s, a), k)
  {
    assert Placed(s, k);
    if a == Resume { assert s.rq[0] in s.rq; }
  }
}
