/** Select, resumption and the queues in module Scheduler keep its invariant. */
module SelectLaws {
  import opened Collections
  import opened ChannelSpec
  import Q = ReadyQueue
  import opened Scheduler
  import opened SchedulerLaws
  import opened SchedulerSteps

  ghost predicate CasesOn(chans: seq<Channel>, cases: seq<Case>) {
    && (forall i :: 0 <= i < |cases| ==> cases[i].ch < |chans|)
    && forall i, j :: 0 <= i < j < |cases| ==> cases[i].ch != cases[j].ch
  }

  /** Posting changes the channel of each case once, and no other. */
  lemma {:induction false} PostIs(chans: seq<Channel>, me: Co, cases: seq<Case>)
    requires CasesOn(chans, cases)
    ensures var out := Post(chans, me, cases);
      && |out| == |chans|
      && (forall i :: 0 <= i < |cases| ==> out[cases[i].ch] == PostOne(chans[cases[i].ch], me, cases[i]))
      && forall ch :: 0 <= ch < |chans| && (forall i :: 0 <= i < |cases| ==> cases[i].ch != ch) ==> out[ch] == chans[ch]
    decreases |cases|
  {
    if cases != [] {
      var x := cases[0];
      PostIs(chans[x.ch := PostOne(chans[x.ch], me, x)], me, cases[1..]);
      var out := Post(chans, me, cases);
      forall i | 0 <= i < |cases| ensures out[cases[i].ch] == PostOne(chans[cases[i].ch], me, cases[i]) {
        if i > 0 { assert cases[1..][i - 1] == cases[i]; }
      }
    }
  }

  lemma {:induction false} UnpostIs(chans: seq<Channel>, me: Co, cases: seq<Case>)
    requires CasesOn(chans, cases)
    ensures var out := Unpost(chans, me, cases);
      && |out| == |chans|
      && (forall i :: 0 <= i < |cases| ==> out[cases[i].ch] == UnpostOne(chans[cases[i].ch], me, cases[i]))
      && forall ch :: 0 <= ch < |chans| && (forall i :: 0 <= i < |cases| ==> cases[i].ch != ch) ==> out[ch] == chans[ch]
    decreases |cases|
  {
    if cases != [] {
      var x := cases[0];
      UnpostIs(chans[x.ch := UnpostOne(chans[x.ch], me, x)], me, cases[1..]);
      var out := Unpost(chans, me, cases);
      forall i | 0 <= i < |cases| ensures out[cases[i].ch] == UnpostOne(chans[cases[i].ch], me, cases[i]) {
        if i > 0 { assert cases[1..][i - 1] == cases[i]; }
      }
    }
  }

  // ---------- parking in a select ----------

  function ParkedSelect(s: State, me: Co, cases: seq<Case>): State
    requires forall i :: 0 <= i < |cases| ==> cases[i].ch < |s.chans|
  {
    Suspended(s.(chans := Post(s.chans, me, cases)), Parked(cases))
  }

  lemma ParkSelectAt(s: State, s': State, me: Co, cases: seq<Case>, ch: nat)
    requires Net(s) && s.running == Some(me) && DistinctCases(s, cases)
    requires s'.chans == Post(s.chans, me, cases) && |s'.chans| == |s.chans| && Of(s', me).pc == Parked(cases) && Of(s', me).status.Waiting?
    requires forall i :: 0 <= i < |cases| ==> MustWait(s.chans, cases[i])
    requires ch < |s.chans|
    ensures ParksAt(s, s', me, ch) && (!s.chans[ch].closed ==> Held(s'.chans[ch]) == Held(s.chans[ch]))
  {
    var x := PostAt(s.chans, me, cases, ch);
    assert Placed(s, me) && Tidy(s.chans[ch]);
    if x.Some? {
      PostOneIs(s, me, ch, x.value);
    }
  }

  /** The case that posts on a channel, if any. */
  lemma PostAt(chans: seq<Channel>, me: Co, cases: seq<Case>, ch: nat) returns (x: Option<Case>)
    requires CasesOn(chans, cases) && ch < |chans| && forall i :: 0 <= i < |cases| ==> MustWait(chans, cases[i])
    ensures |Post(chans, me, cases)| == |chans|
    ensures if x.None? then Post(chans, me, cases)[ch] == chans[ch]
            else x.value in cases && x.value.ch == ch && !chans[ch].closed && Post(chans, me, cases)[ch] == PostOne(chans[ch], me, x.value)
  {
    PostIs(chans, me, cases);
    if i :| 0 <= i < |cases| && cases[i].ch == ch {
      assert MustWait(chans, cases[i]);
      return Some(cases[i]);
    }
    return None;
  }

  lemma PostOneIs(s: State, me: Co, ch: nat, x: Case)
    requires Net(s) && ch < |s.chans| && !s.chans[ch].closed && Of(s, me).status.Running?
    ensures Tidy(PostOne(s.chans[ch], me, x)) && Held(PostOne(s.chans[ch], me, x)) == Held(s.chans[ch])
  {
    if x.Push? {
      NewWriter(s, ch, Writer(Some(me), x.ele, true));
      AddHeld(s.chans[ch], Writer(Some(me), x.ele, true));
    } else {
      NewReader(s, ch, Reader(me, true));
    }
  }

  lemma ParkSelectNet(s: State, me: Co, cases: seq<Case>)
    requires Net(s) && s.running == Some(me) && DistinctCases(s, cases)
    requires forall i :: 0 <= i < |cases| ==> MustWait(s.chans, cases[i])
    ensures Net(ParkedSelect(s, me, cases))
  {
    var s' := ParkedSelect(s, me, cases);
    PostIs(s.chans, me, cases);
    forall ch | 0 <= ch < |s.chans| ensures ParksAt(s, s', me, ch) { ParkSelectAt(s, s', me, cases, ch); }
    forall x | x in cases ensures CasePosted(s', me, x) {
      var i :| 0 <= i < |cases| && cases[i] == x;
    }
    ParksNet(s, s', me);
  }

  lemma ParkSelectInv(s: State, me: Co, cases: seq<Case>)
    requires Mid(s, []) && s.running == Some(me) && DistinctCases(s, cases)
    requires forall i :: 0 <= i < |cases| ==> MustWait(s.chans, cases[i])
    ensures Inv(ParkedSelect(s, me, cases))
  {
    var s' := ParkedSelect(s, me, cases);
    PostIs(s.chans, me, cases);
    ParkSelectNet(s, me, cases);
    forall ch | 0 <= ch < |s.chans| ensures Conserved(s'.log, ch, s'.chans[ch]) {
      assert Conserved(s.log, ch, s.chans[ch]);
      ParkSelectAt(s, s', me, cases, ch);
    }
    forall k | 0 <= k < |s.cos| ensures Accounted(s', k) { assert TaleOf(s, k, []); }
  }

  // ---------- one round of a select ----------

  lemma ChoosePush(s: State, x: Case)
    requires Mid(s, []) && s.running.Some? && Of(s, s.running.value).pc.Choosing?
    requires x.Push? && x.ch < |s.chans| && !s.chans[x.ch].closed && !s.stuck && !TryWrite(s, x.ch, x.ele).0.stuck
    ensures var (t, done) := TryWrite(s, x.ch, x.ele); Inv(if done then Ended(t, Selected(x, None)) else t)
  {
    WriteMid(s, x.ch, x.ele);
    var (t, done) := TryWrite(s, x.ch, x.ele);
    AfterChoosePush(t, x, done);
  }

  lemma AfterChoosePush(t: State, x: Case, done: bool)
    requires x.Push? && t.running.Some? && Of(t, t.running.value).pc.Choosing?
    requires Mid(t, if done then [Event(t.running, true, x.ch, x.ele)] else [])
    ensures Inv(if done then Ended(t, Selected(x, None)) else t)
  {
    if done {
      EndedInv(t, [Event(t.running, true, x.ch, x.ele)], Selected(x, None));
    } else {
      StillChoosing(t);
    }
  }

  lemma ChoosePop(s: State, x: Case)
    requires Mid(s, []) && s.running.Some? && Of(s, s.running.value).pc.Choosing?
    requires x.Pop? && x.ch < |s.chans| && !s.chans[x.ch].closed && !s.stuck && !TryRead(s, x.ch).0.stuck
    ensures var (t, done, value) := TryRead(s, x.ch); Inv(if done then Ended(t, Selected(x, value)) else t)
  {
    ReadMid(s, x.ch);
    var (t, done, value) := TryRead(s, x.ch);
    AfterChoosePop(t, x, value);
  }

  lemma AfterChoosePop(t: State, x: Case, value: Option<Value>)
    requires x.Pop? && t.running.Some? && Of(t, t.running.value).pc.Choosing?
    requires Mid(t, if value.Some? then [Event(t.running, false, x.ch, value.value)] else [])
    ensures Inv(if value.Some? then Ended(t, Selected(x, value)) else t)
  {
    if value.Some? {
      EndedInv(t, [Event(t.running, false, x.ch, value.value)], Selected(x, value));
    } else {
      StillChoosing(t);
    }
  }

  lemma ChooseCase(s: State, x: Case)
    requires Inv(s) && Mid(s, []) && s.running.Some? && Of(s, s.running.value).pc.Choosing? && x.ch < |s.chans| && !s.stuck
    requires !TryCase(s, x).stuck
    ensures Inv(TryCase(s, x))
  {
    if s.chans[x.ch].closed {
      if x.Pop? { EndedInv(s, [], Selected(x, None)); }
    } else if x.Push? {
      ChoosePush(s, x);
    } else {
      ChoosePop(s, x);
    }
  }

  lemma PollCase(s: State, x: Case)
    requires Inv(s) && s.running.None? && x.ch < |s.chans| && !s.stuck && !TryCase(s, x).stuck
    ensures Inv(TryCase(s, x))
  {
    forall k | 0 <= k < |s.cos| ensures TaleOf(s, k, []) { assert Accounted(s, k); }
    if !s.chans[x.ch].closed {
      if x.Push? {
        var (t, done) := TryWrite(s, x.ch, x.ele);
        WriteMid(s, x.ch, x.ele);
        EndedInv(t, if done then [Event(s.running, true, x.ch, x.ele)] else [], Selected(x, None));
      } else {
        var (t, done, value) := TryRead(s, x.ch);
        ReadMid(s, x.ch);
        EndedInv(t, if value.Some? then [Event(s.running, false, x.ch, value.value)] else [], Selected(x, value));
      }
    }
  }

  lemma PollInv(s: State, cases: seq<Case>)
    requires Inv(s) && Enabled(s, PollOp(cases)) && !PollStep(s, cases).stuck
    ensures Inv(PollStep(s, cases))
  {
    var i := Available(s.chans, cases);
    if i < |cases| { PollCase(s, cases[i]); }
  }

  lemma ChooseInv(s: State)
    requires Inv(s) && Enabled(s, Choose) && !Do(s, Choose).stuck
    ensures Inv(Do(s, Choose))
  {
    var me, pc := s.running.value, Of(s, s.running.value).pc;
    var i := Available(s.chans, pc.cases);
    ChoosingMid(s);
    if i < |pc.cases| {
      var x := pc.cases[i];
      ChooseCase(s, x);
    } else if !pc.blocked {
      EndedInv(s, [], NothingSelected);
    } else {
      ParkSelectInv(s, me, pc.cases);
    }
  }

  lemma SelectInv(s: State, cases: seq<Case>, blocked: bool)
    requires Inv(s) && Enabled(s, SelectOp(cases, blocked))
    ensures Inv(Do(s, SelectOp(cases, blocked)))
  {
    var b, me := Begun(s), s.running.value;
    BegunMid(s);
    var s' := With(b, me, Of(b, me).(pc := Choosing(cases, blocked)));
    assert Placed(b, me);
    NetTouch(b, s', me);
    forall ch | 0 <= ch < |s.chans| ensures Conserved(s'.log, ch, s'.chans[ch]) { assert Conserved(b.log, ch, b.chans[ch]); }
    forall k | 0 <= k < |s.cos| ensures Accounted(s', k) { assert TaleOf(b, k, []); }
  }

  // ---------- resuming ----------

  lemma {:induction false} WithoutWriters(w: seq<Writer>, k: Co)
    requires UniqueWriters(w)
    ensures UniqueWriters(WritersWithout(w, k))
    ensures (forall x :: x in w && x.co == Some(k) ==> x.select) ==> Pending(WritersWithout(w, k)) == Pending(w)
  {
    if w != [] {
      WithoutWriters(w[1..], k);
      if w[0].co == Some(k) {
        assert w[0].select ==> Pending(w[1..]) + [] == Pending(w[1..]);
      } else {
        assert ([w[0]] + WritersWithout(w[1..], k))[1..] == WritersWithout(w[1..], k);
      }
    }
  }

  lemma {:induction false} WithoutReaders(r: seq<Reader>, k: Co)
    requires UniqueReaders(r)
    ensures UniqueReaders(ReadersWithout(r, k))
  {
    if r != [] {
      WithoutReaders(r[1..], k);
      if r[0].co != k {
        assert ([r[0]] + ReadersWithout(r[1..], k))[1..] == ReadersWithout(r[1..], k);
      }
    }
  }

  /** The coroutine at the head of the queue runs, and has no waiter any more. */
  ghost predicate Runs(s: State, s': State, k: Co) {
    && s.running == None && s.rq != [] && s.rq[0] == k && s'.rq == s.rq[1..] && s'.later == s.later && s'.running == Some(k)
    && k < |s.cos| == |s'.cos| && (forall j :: 0 <= j < |s.cos| && j != k ==> s'.cos[j] == s.cos[j])
    && s'.cos[k].status == Running && (s'.cos[k].pc.User? || s'.cos[k].pc.Choosing?) && CasesOk(s', k)
    && |s'.chans| == |s.chans|
    && forall i :: 0 <= i < |s.chans| ==> RunsAt(s, s', k, i)
  }

  ghost predicate RunsAt(s: State, s': State, k: Co, i: nat)
    requires i < |s.chans| == |s'.chans|
  {
    var c, c' := s.chans[i], s'.chans[i];
    && Tidy(c') && c'.closed == c.closed && GoneFrom(c', k)
    && (forall x :: x in c'.w ==> x in c.w) && (forall x :: x in c'.r ==> x in c.r)
    && (forall x :: x in c.w && x.co != Some(k) ==> x in c'.w) && (forall x :: x in c.r && x.co != k ==> x in c'.r)
  }

  lemma RunsNodes(s: State, s': State, k: Co, i: nat)
    requires Net(s) && Runs(s, s', k) && i < |s.chans|
    ensures NodesOk(s', i)
  {
    assert NodesOk(s, i) && RunsAt(s, s', k, i);
    forall x | x in s'.chans[i].w ensures WriterOk(s', i, x) { assert WriterOk(s, i, x); }
    forall x | x in s'.chans[i].r ensures ReaderOk(s', i, x) { assert ReaderOk(s, i, x); }
  }

  lemma RunsPlaced(s: State, s': State, k: Co, j: Co)
    requires Net(s) && Runs(s, s', k) && j < |s.cos|
    ensures Placed(s', j) && CasesOk(s', j)
  {
    assert Placed(s, j) && CasesOk(s, j) && Placed(s, k) && k in s.rq;
    assert s.rq == [k] + s.rq[1..];
    if j != k {
      match Of(s, j).pc {
        case PushWait(ch, _) => if ch < |s.chans| { assert RunsAt(s, s', k, ch); }
        case PopWait(ch, _) => if ch < |s.chans| { assert RunsAt(s, s', k, ch); }
        case Parked(cases) =>
          forall x | x in cases && CasePosted(s, j, x) ensures CasePosted(s', j, x) { assert RunsAt(s, s', k, x.ch); }
        case _ =>
      }
    }
  }

  lemma RunsNet(s: State, s': State, k: Co)
    requires Net(s) && Runs(s, s', k)
    ensures Net(s')
  {
    assert Placed(s, k) && k in s.rq;
    forall i | 0 <= i < |s.chans| ensures NodesOk(s', i) { RunsNodes(s, s', k, i); }
    forall i | 0 <= i < |s.chans| ensures Tidy(s'.chans[i]) { assert RunsAt(s, s', k, i); }
    forall j | 0 <= j < |s.cos| ensures Placed(s', j) && CasesOk(s', j) { RunsPlaced(s, s', k, j); }
    forall j | j in s'.rq ensures j < |s.cos| && j != k { assert j in s.rq; }
  }

  /** A ready coroutine has no waiters but those of a select. */
  lemma ReadyNodes(s: State, k: Co, i: nat)
    requires Net(s) && k < |s.cos| && (s.cos[k].status.Ready? || s.cos[k].status.Starting?) && i < |s.chans|
    ensures forall x :: x in s.chans[i].w && x.co == Some(k) ==> x.select && s.cos[k].pc.Parked? && Push(i, x.ele) in s.cos[k].pc.cases
    ensures forall x :: x in s.chans[i].r && x.co == k ==> x.select && s.cos[k].pc.Parked? && Pop(i) in s.cos[k].pc.cases
  {
    assert NodesOk(s, i);
    forall x | x in s.chans[i].w && x.co == Some(k) ensures x.select && s.cos[k].pc.Parked? && Push(i, x.ele) in s.cos[k].pc.cases {
      assert WriterOk(s, i, x);
    }
    forall x | x in s.chans[i].r && x.co == k ensures x.select && s.cos[k].pc.Parked? && Pop(i) in s.cos[k].pc.cases {
      assert ReaderOk(s, i, x);
    }
  }

  /** Taking one side's waiters of `k` back leaves none, if there are none on the
      other side. */
  lemma UnpostOneIs(c: Channel, k: Co, x: Case)
    requires Tidy(c) && forall y :: y in c.w && y.co == Some(k) ==> y.select
    requires if x.Push? then forall y :: y in c.r ==> y.co != k else forall y :: y in c.w ==> y.co != Some(k)
    ensures var c' := UnpostOne(c, k, x);
      && Tidy(c') && c'.closed == c.closed && GoneFrom(c', k) && Held(c') == Held(c)
      && (forall y :: y in c'.w ==> y in c.w) && (forall y :: y in c'.r ==> y in c.r)
      && (forall y :: y in c.w && y.co != Some(k) ==> y in c'.w) && (forall y :: y in c.r && y.co != k ==> y in c'.r)
  {
    WithoutWriters(c.w, k);
    WithoutReaders(c.r, k);
  }

  lemma UnpostAt(s: State, s': State, k: Co, i: nat)
    requires Net(s) && k < |s.cos| && s.cos[k].status.Ready? && s.cos[k].pc.Parked? && i < |s.chans|
    requires s'.chans == Unpost(s.chans, k, s.cos[k].pc.cases) && |s'.chans| == |s.chans|
    ensures RunsAt(s, s', k, i) && Held(s'.chans[i]) == Held(s.chans[i])
  {
    var cases, c := s.cos[k].pc.cases, s.chans[i];
    assert CasesOk(s, k) && Tidy(c);
    UnpostIs(s.chans, k, cases);
    ReadyNodes(s, k, i);
    if j :| 0 <= j < |cases| && cases[j].ch == i {
      assert cases[j].Push? ==> Pop(i) !in cases;
      assert cases[j].Pop? ==> forall v :: Push(i, v) !in cases;
      UnpostOneIs(c, k, cases[j]);
    }
  }

  lemma ResumeNet(s: State)
    requires Net(s) && s.running == None && s.rq != []
    ensures Net(ResumeStep(s)) && ResumeStep(s).stuck == s.stuck && ResumeStep(s).log == s.log
    ensures ResumeStep(s).running == Some(s.rq[0]) && |ResumeStep(s).chans| == |s.chans|
    ensures forall i :: 0 <= i < |s.chans| ==> RunsAt(s, ResumeStep(s), s.rq[0], i) && Held(ResumeStep(s).chans[i]) == Held(s.chans[i])
  {
    var s', k := ResumeStep(s), s.rq[0];
    assert k in s.rq && Placed(s, k) && CasesOk(s, k);
    if s.cos[k].pc.Parked? {
      UnpostIs(s.chans, k, s.cos[k].pc.cases);
    }
    forall i | 0 <= i < |s.chans| ensures RunsAt(s, s', k, i) && Held(s'.chans[i]) == Held(s.chans[i]) {
      if s.cos[k].pc.Parked? {
        UnpostAt(s, s', k, i);
      } else {
        ReadyNodes(s, k, i);
        assert Tidy(s.chans[i]);
      }
    }
    RunsNet(s, s', k);
  }

  lemma ResumeTale(s: State, j: Co)
    requires s.rq != [] && Placed(s, s.rq[0]) && (Of(s, s.rq[0]).status.Ready? || Of(s, s.rq[0]).status.Starting?)
    requires j < |s.cos| && Accounted(s, j)
    ensures Accounted(ResumeStep(s), j)
  {
    var s', k := ResumeStep(s), s.rq[0];
    assert s'.log == s.log && (j != k ==> Of(s', j) == Of(s, j));
    if j == k { ResumedTale(s, s', k); }
  }

  lemma ResumedTale(s: State, s': State, k: Co)
    requires k < |s.cos| == |s'.cos| && Accounted(s, k) && s'.log == s.log && s'.cos[k].since == s.cos[k].since
    requires match s.cos[k].pc
      case PushWait(ch, v) => s'.cos[k].pc == User && s'.cos[k].result == PushDone(ch, v)
      case PopWait(ch, got) => s'.cos[k].pc == User && s'.cos[k].result == if got.Some? then PopDone(ch, got.value) else PopNull
      case Parked(_) => s'.cos[k].pc.Choosing?
      case _ => s'.cos[k].pc == s.cos[k].pc && s'.cos[k].result == s.cos[k].result
    ensures Accounted(s', k)
  {
  }

  lemma ResumeInv(s: State)
    requires Inv(s) && Enabled(s, Resume)
    ensures Inv(ResumeStep(s)) && !ResumeStep(s).stuck
  {
    ResumeNet(s);
    assert s.rq[0] in s.rq && Placed(s, s.rq[0]);
    forall j | 0 <= j < |s.cos| ensures Accounted(ResumeStep(s), j) {
      assert Accounted(s, j);
      ResumeTale(s, j);
    }
    ResumeBook(s, ResumeStep(s), s.rq[0]);
  }

  lemma ResumeBook(s: State, s': State, k: Co)
    requires Book(s) && s'.log == s.log && |s'.chans| == |s.chans|
    requires forall i :: 0 <= i < |s.chans| ==> RunsAt(s, s', k, i) && Held(s'.chans[i]) == Held(s.chans[i])
    ensures Book(s')
  {
    forall i | 0 <= i < |s.chans| ensures Conserved(s'.log, i, s'.chans[i]) {
      assert Conserved(s.log, i, s.chans[i]) && RunsAt(s, s', k, i);
    }
  }

  // ---------- yielding, finishing, joining, merging ----------

  /** The running coroutine gives up control without waiting for anything. */
  ghost predicate Leaves(s: State, s': State, me: Co) {
    && s.running == Some(me) && me < |s.cos| && s'.running == None && s'.chans == s.chans && s'.rq == s.rq && s'.log == s.log
    && s'.cos == s.cos[me := s.cos[me].(status := if me in s'.later then Ready else Terminated)]
    && (s'.later == s.later || s'.later == s.later + [me]) && s.cos[me].pc.User?
  }

  lemma LeavesNodes(s: State, s': State, me: Co, i: nat)
    requires Net(s) && Leaves(s, s', me) && i < |s.chans|
    ensures NodesOk(s', i)
  {
    assert NodesOk(s, i) && Placed(s, me);
    forall x | x in s.chans[i].w ensures WriterOk(s', i, x) { assert WriterOk(s, i, x); }
    forall x | x in s.chans[i].r ensures ReaderOk(s', i, x) { assert ReaderOk(s, i, x); }
  }

  lemma LeavesPlaced(s: State, s': State, me: Co, k: Co)
    requires Net(s) && Leaves(s, s', me) && k < |s.cos|
    ensures Placed(s', k) && CasesOk(s', k)
  {
    assert Placed(s, k) && CasesOk(s, k) && Placed(s, me);
    if k != me && Of(s, k).pc.Parked? {
      forall x | x in Of(s, k).pc.cases && CasePosted(s, k, x) ensures CasePosted(s', k, x) {}
    }
  }

  lemma LeavesInv(s: State, s': State, me: Co)
    requires Inv(s) && Leaves(s, s', me)
    ensures Inv(s')
  {
    assert Placed(s, me);
    forall i | 0 <= i < |s.chans| ensures NodesOk(s', i) && Conserved(s'.log, i, s'.chans[i]) {
      LeavesNodes(s, s', me, i);
      assert Conserved(s.log, i, s.chans[i]);
    }
    forall k | 0 <= k < |s.cos| ensures Placed(s', k) && CasesOk(s', k) && Accounted(s', k) {
      LeavesPlaced(s, s', me, k);
      assert Accounted(s, k);
    }
    Q.Joined(s.later, [me]);
  }

  lemma YieldInv(s: State)
    requires Inv(s) && Enabled(s, YieldOp)
    ensures Inv(Yielded(s))
  {
    LeavesInv(s, Yielded(s), s.running.value);
  }

  lemma FinishInv(s: State)
    requires Inv(s) && Enabled(s, FinishOp)
    ensures Inv(Finished(s))
  {
    assert Placed(s, s.running.value);
    LeavesInv(s, Finished(s), s.running.value);
  }

  /** The queues change, and nothing else. */
  lemma QueuesInv(s: State, rq: seq<Co>, later: seq<Co>)
    requires Inv(s) && QueuesOk(s.(rq := rq, later := later))
    requires forall k :: 0 <= k < |s.cos| ==> Placed(s.(rq := rq, later := later), k)
    ensures Inv(s.(rq := rq, later := later))
  {
    var s' := s.(rq := rq, later := later);
    forall i | 0 <= i < |s.chans| ensures NodesOk(s', i) && Conserved(s'.log, i, s'.chans[i]) {
      assert NodesOk(s, i) && Conserved(s.log, i, s.chans[i]);
      forall x | x in s.chans[i].w ensures WriterOk(s', i, x) { assert WriterOk(s, i, x); }
      forall x | x in s.chans[i].r ensures ReaderOk(s', i, x) { assert ReaderOk(s, i, x); }
    }
    forall k | 0 <= k < |s.cos| ensures CasesOk(s', k) && Accounted(s', k) { assert CasesOk(s, k) && Accounted(s, k); }
  }

  /** Neither change moves a coroutine that waits. */
  lemma StillPosted(s: State, rq: seq<Co>, later: seq<Co>, k: Co)
    requires Posted(s, k)
    ensures Posted(s.(rq := rq, later := later), k)
  {
    if Of(s, k).pc.Parked? {
      forall x | x in Of(s, k).pc.cases ensures CasePosted(s.(rq := rq, later := later), k, x) { assert CasePosted(s, k, x); }
    }
  }

  lemma JoinInv(s: State, co: Co)
    requires Inv(s) && Enabled(s, JoinOp(co))
    ensures Inv(Do(s, JoinOp(co)))
  {
    var rq := Q.Enqueue(s.rq, co);
    forall k | 0 <= k < |s.cos| ensures Placed(s.(rq := rq, later := s.later), k) {
      assert Placed(s, k);
      if Of(s, k).status.Waiting? { StillPosted(s, rq, s.later, k); }
    }
    QueuesInv(s, rq, s.later);
    assert s.(rq := rq, later := s.later) == Do(s, JoinOp(co));
  }

  lemma EndPassInv(s: State)
    requires Inv(s) && Enabled(s, EndPass)
    ensures Inv(Do(s, EndPass)) && Do(s, EndPass).rq == s.later
  {
    assert [] + s.later == s.later;
    Q.MergeNew([], s.later);
    forall k | 0 <= k < |s.cos| ensures Placed(s.(rq := s.later, later := []), k) {
      assert Placed(s, k);
      if Of(s, k).status.Waiting? { StillPosted(s, s.later, [], k); }
    }
    QueuesInv(s, s.later, []);
  }
}
