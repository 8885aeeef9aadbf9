/** In which order a channel delivers what it accepted, in runs of module Scheduler
    in which nobody selects. */
module Deliveries {
  import opened Collections
  import opened ChannelSpec
  import opened Scheduler
  import opened SchedulerLaws
  import opened SchedulerSteps
  import opened Runs
  import opened SelectFreeRuns

  /** What channel `ch` delivered so far is the beginning of what it accepted. */
  ghost predicate Delivered(s: State, ch: nat) {
    Takes(s.log, ch) <= Puts(s.log, ch)
  }

  /** The pop serves another value than the next one accepted and not delivered. */
  ghost predicate Misses(s: State, a: Action, ch: nat) {
    && (a.PopOp? || a.GrabOp?) && a.ch == ch && ch < |s.chans| && !s.chans[ch].closed && !RBlocked(s.chans[ch])
    && |Takes(s.log, ch)| < |Puts(s.log, ch)|
    && Read(s.chans[ch]).value != Some(Puts(s.log, ch)[|Takes(s.log, ch)|])
  }

  /** An open channel has accepted as many values as it delivered and holds. */
  lemma Sizes(s: State, ch: nat)
    requires Good(s) && ch < |s.chans| && !s.chans[ch].closed
    ensures |Puts(s.log, ch)| == |Takes(s.log, ch)| + |Outstanding(s.chans[ch])|
  {
    assert Conserved(s.log, ch, s.chans[ch]);
    assert |multiset(Puts(s.log, ch))| == |multiset(Takes(s.log, ch))| + |Held(s.chans[ch])|;
  }

  /** One value more accepted, or one more delivered, or both. */
  lemma PrefixIff(puts: seq<Value>, takes: seq<Value>, put: Option<Value>, take: Option<Value>)
    requires |takes| <= |puts| && |takes| + |Opt(take)| <= |puts| + |Opt(put)|
    ensures takes + Opt(take) <= puts + Opt(put) <==>
              takes <= puts && (take.Some? ==> (puts + Opt(put))[|takes|] == take.value)
  {
    var p, t := puts + Opt(put), takes + Opt(take);
    assert p[..|takes|] == puts[..|takes|] && t[..|takes|] == takes;
    if t <= p {
      assert t == p[..|t|] && p[..|t|][..|takes|] == p[..|takes|];
    }
    if takes <= puts && take.Some? && p[|takes|] == take.value {
      assert p[..|takes| + 1] == p[..|takes|] + [p[|takes|]];
    }
  }

  /** How a step that moves values on channel `ch` changes the order. */
  lemma MovedIff(s: State, s': State, ch: nat, put: Option<Value>, take: Option<Value>)
    requires MovedLog(s.log, s'.log, ch, put, take)
    requires |Takes(s.log, ch)| <= |Puts(s.log, ch)|
    requires |Takes(s.log, ch)| + |Opt(take)| <= |Puts(s.log, ch)| + |Opt(put)|
    ensures Puts(s.log, ch) <= Puts(s'.log, ch)
    ensures Delivered(s', ch) <==>
              Delivered(s, ch) && (take.Some? ==> (Puts(s.log, ch) + Opt(put))[|Takes(s.log, ch)|] == take.value)
  {
    PrefixIff(Puts(s.log, ch), Takes(s.log, ch), put, take);
  }

  /** The order is as before, and nothing accepted is forgotten. */
  ghost predicate Keeps(s: State, s': State, ch: nat) {
    (Delivered(s', ch) <==> Delivered(s, ch)) && Puts(s.log, ch) <= Puts(s'.log, ch)
  }

  lemma WriteKeeps(s: State, t: State, ch: nat, v: Value)
    requires ch < |s.chans| && !s.chans[ch].closed && Exclusive(s.chans[ch]) && WroteTo(s, t, ch, v)
    requires |Puts(s.log, ch)| == |Takes(s.log, ch)| + |Outstanding(s.chans[ch])|
    ensures Keeps(s, t, ch)
  {
    var c := s.chans[ch];
    WroteLog(s, t, ch, v);
    if WriteTakes(c, v).Some? {
      assert Outstanding(c) == [];
    }
    MovedIff(s, t, ch, WritePuts(c, v), WriteTakes(c, v));
  }

  /** A value that has to wait is accepted and not delivered. */
  lemma WaitKeeps(t: State, u: State, ch: nat, v: Value)
    requires u.log == t.log + [Event(t.running, true, ch, v)] && |Takes(t.log, ch)| <= |Puts(t.log, ch)|
    ensures Keeps(t, u, ch)
  {
    OneEvent(t.log, Event(t.running, true, ch, v));
    MovedIff(t, u, ch, Some(v), None);
  }

  lemma KeepsOn(s: State, t: State, u: State, ch: nat)
    requires Keeps(s, t, ch) && Keeps(t, u, ch)
    ensures Keeps(s, u, ch)
  {
  }

  lemma AfterPushKeeps(t: State, done: bool, ch: nat, v: Value, blocked: bool)
    requires ch < |t.chans| && |Takes(t.log, ch)| <= |Puts(t.log, ch)| && (blocked ==> t.running.Some?)
    ensures Keeps(t, AfterPush(t, done, ch, v, blocked), ch)
    ensures Keeps(t, Ended(if done then t else LeftBehind(t, ch, v), PushDone(ch, v)), ch)
  {
    if !done {
      WaitKeeps(t, Ended(LeftBehind(t, ch, v), PushDone(ch, v)), ch, v);
      if blocked { WaitKeeps(t, ParkedPush(t, ch, v), ch, v); }
    }
  }

  lemma TryWriteKeeps(s: State, ch: nat, v: Value)
    requires ch < |s.chans| && !s.chans[ch].closed && Exclusive(s.chans[ch])
    requires |Puts(s.log, ch)| == |Takes(s.log, ch)| + |Outstanding(s.chans[ch])|
    ensures Keeps(s, TryWrite(s, ch, v).0, ch) && |Takes(TryWrite(s, ch, v).0.log, ch)| <= |Puts(TryWrite(s, ch, v).0.log, ch)|
    ensures TryWrite(s, ch, v).0.running == s.running && |TryWrite(s, ch, v).0.chans| == |s.chans|
  {
    TryKeepsRunning(s, ch, v);
    WriteShape(s, ch, v);
    WriteKeeps(s, TryWrite(s, ch, v).0, ch, v);
    WroteLog(s, TryWrite(s, ch, v).0, ch, v);
  }

  lemma PushKeeps(s: State, ch: nat, v: Value, blocked: bool)
    requires Good(s) && Free(s) && ch < |s.chans| && (blocked ==> s.running.Some?)
    ensures Keeps(s, PushStep(s, ch, v, blocked), ch) && Keeps(s, OfferStep(s, ch, v), ch)
  {
    if !s.chans[ch].closed {
      var b := Begun(s);
      var (t, done) := TryWrite(b, ch, v);
      Sizes(s, ch);
      assert Exclusive(s.chans[ch]);
      TryWriteKeeps(b, ch, v);
      AfterPushKeeps(t, done, ch, v, blocked);
      KeepsOn(s, t, AfterPush(t, done, ch, v, blocked), ch);
      KeepsOn(s, t, Ended(if done then t else LeftBehind(t, ch, v), PushDone(ch, v)), ch);
    }
  }

  lemma ReadMisses(s: State, t: State, ch: nat)
    requires ch < |s.chans| && !s.chans[ch].closed && Exclusive(s.chans[ch]) && SelectFree(s.chans[ch]) && ReadFrom(s, t, ch)
    requires |Puts(s.log, ch)| == |Takes(s.log, ch)| + |Outstanding(s.chans[ch])|
    ensures Puts(s.log, ch) <= Puts(t.log, ch)
    ensures Delivered(t, ch) <==> Delivered(s, ch) && !Misses(s, PopOp(ch, false), ch)
  {
    var c := s.chans[ch];
    if !RBlocked(c) { ReadIsNextIff(c); }
    ReadLog(s, t, ch);
    MovedIff(s, t, ch, None, Read(c).value);
  }

  lemma AfterPopLog(t: State, value: Option<Value>, ch: nat, blocked: bool)
    requires ch < |t.chans| && (blocked ==> t.running.Some?)
    ensures AfterPop(t, value, ch, blocked).log == t.log && |AfterPop(t, value, ch, blocked).chans| == |t.chans|
  {
  }

  lemma PopMisses(s: State, ch: nat, blocked: bool)
    requires Good(s) && Free(s) && ch < |s.chans| && (blocked ==> s.running.Some?)
    ensures Puts(s.log, ch) <= Puts(PopStep(s, ch, blocked).log, ch)
    ensures Delivered(PopStep(s, ch, blocked), ch) <==> Delivered(s, ch) && !Misses(s, PopOp(ch, blocked), ch)
  {
    if !s.chans[ch].closed {
      var b := Begun(s);
      var (t, _, value) := TryRead(b, ch);
      PlainChannels(s, ch);
      Sizes(s, ch);
      assert Exclusive(s.chans[ch]);
      ReadShape(b, ch);
      ReadMisses(b, t, ch);
      TryKeepsRunning(b, ch, 0);
      AfterPopLog(t, value, ch, blocked);
    }
  }

  /** A step keeps the order of delivery exactly if it is no pop that misses the next
      value; an order that is lost stays lost. */
  lemma StepDelivers(s: State, a: Action, ch: nat)
    requires Good(s) && Enabled(s, a) && !a.SelectOp? && !a.PollOp? && ch < |s.chans|
    ensures ch < |Do(s, a).chans| && Puts(s.log, ch) <= Puts(Do(s, a).log, ch)
    ensures Delivered(Do(s, a), ch) <==> Delivered(s, ch) && !Misses(s, a, ch)
  {
    ChannelsStay(s, a);
    if a.PushOp? || a.OfferOp? {
      PushDelivers(s, a, ch);
    } else if a.PopOp? || a.GrabOp? {
      PopDelivers(s, a, ch);
    } else {
      if a.CloseOp? { CloseKeeps(s, a.ch); }
      assert Do(s, a).log == s.log;
    }
  }

  lemma PushDelivers(s: State, a: Action, ch: nat)
    requires Good(s) && Enabled(s, a) && (a.PushOp? || a.OfferOp?) && ch < |s.chans|
    ensures Keeps(s, Do(s, a), ch)
  {
    if a.ch == ch {
      PushKeeps(s, ch, a.v, a.PushOp? && a.blocked);
    } else {
      FrozenPush(s, a.ch, a.v, a.PushOp? && a.blocked, ch);
    }
  }

  lemma PopDelivers(s: State, a: Action, ch: nat)
    requires Good(s) && Enabled(s, a) && (a.PopOp? || a.GrabOp?) && ch < |s.chans|
    ensures Puts(s.log, ch) <= Puts(Do(s, a).log, ch)
    ensures Delivered(Do(s, a), ch) <==> Delivered(s, ch) && !Misses(s, a, ch)
  {
    if a.ch == ch {
      PopMisses(s, ch, a.PopOp? && a.blocked);
    } else if a.PopOp? {
      FrozenPop(s, a.ch, a.blocked, ch);
    } else {
      GrabFrozen(s, a.ch, ch);
    }
  }

  lemma CloseKeeps(s: State, at: nat)
    requires at < |s.chans|
    ensures CloseStep(s, at).log == s.log
  {
    if !s.chans[at].closed {
      WakeAllKeeps(Begun(s).(chans := s.chans[at := Shut(s.chans[at])]), Sleepers(s.chans[at]));
    }
  }

  lemma ChannelsStay(s: State, a: Action)
    requires Good(s) && Enabled(s, a) && !a.SelectOp? && !a.PollOp?
    ensures |Do(s, a).chans| == |s.chans|
  {
    match a
    case PushOp(at, v, blocked) => PushStays(s, at, v, blocked);
    case OfferOp(at, v) => PushStays(s, at, v, false);
    case PopOp(at, blocked) => PopStays(s, at, blocked);
    case GrabOp(at) => PopStays(s, at, false);
    case CloseOp(at) => CloseStays(s, at);
    case Resume =>
      assert s.rq[0] in s.rq && Placed(s, s.rq[0]) && !Of(s, s.rq[0]).pc.Parked?;
    case _ =>
  }

  lemma PushStays(s: State, at: nat, v: Value, blocked: bool)
    requires at < |s.chans| && (blocked ==> s.running.Some?)
    ensures |PushStep(s, at, v, blocked).chans| == |OfferStep(s, at, v).chans| == |s.chans|
  {
    TryKeepsRunning(Begun(s), at, v);
  }

  lemma PopStays(s: State, at: nat, blocked: bool)
    requires at < |s.chans| && (blocked ==> s.running.Some?)
    ensures |PopStep(s, at, blocked).chans| == |GrabStep(s, at).chans| == |s.chans|
  {
    var (t, _, value) := TryRead(Begun(s), at);
    TryKeepsRunning(Begun(s), at, 0);
    AfterPopLog(t, value, at, blocked);
    AfterPopLog(t, value, at, false);
  }

  lemma CloseStays(s: State, at: nat)
    requires at < |s.chans|
    ensures |CloseStep(s, at).chans| == |s.chans|
  {
    if !s.chans[at].closed {
      WakeAllKeeps(Begun(s).(chans := s.chans[at := Shut(s.chans[at])]), Sleepers(s.chans[at]));
    }
  }

  /** No pop of the run misses on channel `ch`. */
  ghost predicate NeverMisses(s: State, run: seq<Action>, ch: nat)
    decreases |run|
  {
    run != [] ==> Enabled(s, run[0]) && !Misses(s, run[0], ch) && NeverMisses(Do(s, run[0]), run[1..], ch)
  }

  /** Over a whole run a channel delivers in the order in which it accepted exactly if
      every pop serves the next value. */
  lemma {:induction false} RunDeliversIff(s: State, run: seq<Action>, s': State, ch: nat)
    requires Good(s) && Reaches(s, run, s') && NoSelect(run) && ch < |s.chans|
    ensures Puts(s.log, ch) <= Puts(s'.log, ch)
    ensures Delivered(s', ch) <==> Delivered(s, ch) && NeverMisses(s, run, ch)
    decreases |run|
  {
    if run != [] {
      StepDelivers(s, run[0], ch);
      StepGood(s, run[0]);
      RunDeliversIff(Do(s, run[0]), run[1..], s', ch);
    }
  }

  /** As long as everything went in order, a pop misses exactly if a writer is blocked
      whose value is not the oldest outstanding one. */
  lemma MissesIff(s: State, run: seq<Action>, s': State, a: Action, ch: nat)
    requires Init(s) && Reaches(s, run, s') && NoSelect(run) && Enabled(s', a) && !a.SelectOp? && !a.PollOp? && ch < |s'.chans|
    requires InOrder(s', ch)
    ensures Delivered(s', ch)
    ensures Delivered(Do(s', a), ch) <==>
              var c := s'.chans[ch];
              !((a.PopOp? || a.GrabOp?) && a.ch == ch && c.w != [] && Outstanding(c) != [] && c.w[0].ele != Outstanding(c)[0])
  {
    InitGood(s);
    RunGood(s, run, s');
    StepDelivers(s', a, ch);
    PlainChannels(s', ch);
    var c := s'.chans[ch];
    assert Exclusive(c) && Tidy(c);
    assert Takes(s'.log, ch) <= Puts(s'.log, ch);
    if !c.closed && !RBlocked(c) { ReadIsNextIff(c); }
    PendingCount(c.w);
  }

  // ---------- different values ----------

  /** A pop takes a value while an older one is outstanding. */
  ghost predicate Overtaking(s: State, a: Action, ch: nat) {
    && (a.PopOp? || a.GrabOp?) && a.ch == ch && ch < |s.chans| && !s.chans[ch].closed
    && s.chans[ch].w != [] && |Outstanding(s.chans[ch])| > 1
  }

  ghost predicate NeverOvertakes(s: State, run: seq<Action>, ch: nat)
    decreases |run|
  {
    run != [] ==> Enabled(s, run[0]) && !Overtaking(s, run[0], ch) && NeverOvertakes(Do(s, run[0]), run[1..], ch)
  }

  lemma OldestIsOther(c: Channel, puts: seq<Value>, takes: seq<Value>)
    requires Exclusive(c) && SelectFree(c) && c.w != [] && puts == takes + Outstanding(c) && Distinct(puts)
    ensures |Outstanding(c)| > 0
    ensures |Outstanding(c)| > 1 <==> c.w[0].ele != Outstanding(c)[0]
    ensures |Outstanding(c)| == 1 ==> Constant(Outstanding(c), c.w[0].ele)
  {
    PendingCount(c.w);
    var o := Outstanding(c);
    assert o[|o| - 1] == c.w[0].ele;
    assert puts[|takes|] == o[0] && puts[|takes| + |o| - 1] == o[|o| - 1];
  }

  /** A step of an ordered channel with different values. */
  lemma OvertakingIff(s: State, a: Action, ch: nat)
    requires Good(s) && Enabled(s, a) && !a.SelectOp? && !a.PollOp? && InOrder(s, ch) && Distinct(Puts(s.log, ch))
    requires !s.chans[ch].closed && a != CloseOp(ch)
    ensures Delivered(Do(s, a), ch) <==> !Overtaking(s, a, ch)
    ensures !Overtaking(s, a, ch) ==> InOrder(Do(s, a), ch)
  {
    var c := s.chans[ch];
    PlainChannels(s, ch);
    assert Exclusive(c);
    assert Takes(s.log, ch) <= Puts(s.log, ch);
    StepDelivers(s, a, ch);
    StepInOrder(s, a, ch);
    if !RBlocked(c) { ReadIsNextIff(c); }
    if c.w != [] { OldestIsOther(c, Puts(s.log, ch), Takes(s.log, ch)); }
  }

  lemma StaysShut(s: State, a: Action, ch: nat)
    requires Good(s) && Enabled(s, a) && !a.SelectOp? && !a.PollOp? && ch < |s.chans| && s.chans[ch].closed
    ensures ch < |Do(s, a).chans| && Do(s, a).chans[ch].closed
  {
    StepGood(s, a);
    FrozenStep(s, a, ch);
  }

  /** After a close nothing changes. */
  lemma {:induction false} ShutQuiet(s: State, run: seq<Action>, s': State, ch: nat)
    requires Good(s) && Reaches(s, run, s') && NoSelect(run) && ch < |s.chans| && s.chans[ch].closed
    ensures (Delivered(s', ch) <==> Delivered(s, ch)) && NeverOvertakes(s, run, ch)
    decreases |run|
  {
    if run != [] {
      GoodOn(s, run, s');
      StaysShut(s, run[0], ch);
      StepDelivers(s, run[0], ch);
      ShutQuiet(Do(s, run[0]), run[1..], s', ch);
    }
  }

  lemma CloseShuts(s: State, ch: nat)
    requires ch < |s.chans| && !s.chans[ch].closed
    ensures |CloseStep(s, ch).chans| == |s.chans| && CloseStep(s, ch).chans[ch].closed
  {
    WakeAllKeeps(Begun(s).(chans := s.chans[ch := Shut(s.chans[ch])]), Sleepers(s.chans[ch]));
  }

  lemma PrefixDistinct(a: seq<Value>, b: seq<Value>)
    requires a <= b && Distinct(b)
    ensures Distinct(a)
  {
    assert forall i :: 0 <= i < |a| ==> a[i] == b[i];
  }

  /** If all values that a channel accepts are different, it delivers them in the order
      of acceptance over a whole run exactly if no pop of the run is served by a
      blocked writer while an older value is outstanding. */
  lemma {:induction false} OrderOfDistinct(s: State, run: seq<Action>, s': State, ch: nat)
    requires Good(s) && Reaches(s, run, s') && NoSelect(run) && InOrder(s, ch)
    requires Distinct(Puts(s'.log, ch))
    ensures Delivered(s', ch) <==> NeverOvertakes(s, run, ch)
    decreases |run|
  {
    assert Takes(s.log, ch) <= Puts(s.log, ch);
    if s.chans[ch].closed {
      ShutQuiet(s, run, s', ch);
    } else if run != [] {
      var t := Do(s, run[0]);
      GoodOn(s, run, s');
      if run[0] == CloseOp(ch) {
        CloseKeeps(s, ch);
        CloseShuts(s, ch);
        ShutQuiet(t, run[1..], s', ch);
        return;
      }
      DistinctSoFar(s, run, s', ch);
      OvertakingIff(s, run[0], ch);
      if Overtaking(s, run[0], ch) {
        StaysLost(t, run[1..], s', ch);
      } else {
        OrderOfDistinct(t, run[1..], s', ch);
      }
    }
  }

  lemma GoodOn(s: State, run: seq<Action>, s': State)
    requires Good(s) && run != [] && Reaches(s, run, s') && NoSelect(run)
    ensures Enabled(s, run[0]) && !run[0].SelectOp? && !run[0].PollOp?
    ensures Good(Do(s, run[0])) && Reaches(Do(s, run[0]), run[1..], s') && NoSelect(run[1..])
    ensures |Do(s, run[0]).chans| == |s.chans|
  {
    StepGood(s, run[0]);
    ChannelsStay(s, run[0]);
  }

  lemma DistinctSoFar(s: State, run: seq<Action>, s': State, ch: nat)
    requires Good(s) && Reaches(s, run, s') && NoSelect(run) && ch < |s.chans| && Distinct(Puts(s'.log, ch))
    ensures Distinct(Puts(s.log, ch))
  {
    RunDeliversIff(s, run, s', ch);
    PrefixDistinct(Puts(s.log, ch), Puts(s'.log, ch));
  }

  lemma StaysLost(t: State, run: seq<Action>, s': State, ch: nat)
    requires Good(t) && Reaches(t, run, s') && NoSelect(run) && ch < |t.chans| && !Delivered(t, ch)
    ensures !Delivered(s', ch)
  {
    RunDeliversIff(t, run, s', ch);
  }

  // ---------- an input ----------

  /** A channel with a ring of one, and no coroutines; the event loop leaves three
      values and takes one. */
  function OneChannel(ring: seq<Value>, w: seq<Writer>, log: seq<Event>): State {
    State([Channel(1, ring, w, [], false)], [], [], [], None, log, false)
  }

  function Put(v: Value): Event {
    Event(None, true, 0, v)
  }

  function Left(v: Value): Writer {
    Writer(None, v, false)
  }

  function Story(i: nat): State {
    match i
    case 0 => OneChannel([], [], [])
    case 1 => OneChannel([10], [], [Put(10)])
    case 2 => OneChannel([10], [Left(20)], [Put(10), Put(20)])
    case 3 => OneChannel([10], [Left(30), Left(20)], [Put(10), Put(20), Put(30)])
    case _ => OneChannel([10], [Left(20)], [Put(10), Put(20), Put(30), Event(None, false, 0, 30)])
  }

  const Plot := [OfferOp(0, 10), OfferOp(0, 20), OfferOp(0, 30), GrabOp(0)]

  lemma OfferGoes(i: nat)
    requires i < 3
    ensures Follows(Story, Plot, i)
  {
    assert [Put(10)] + [Put(20)] == [Put(10), Put(20)] && [Put(10), Put(20)] + [Put(30)] == [Put(10), Put(20), Put(30)];
    assert [Left(20)] + [] == [Left(20)] && [Left(30)] + [Left(20)] == [Left(30), Left(20)];
    assert [] + [10] == [10] && [] + [Put(10)] == [Put(10)];
  }

  lemma GrabGoes()
    ensures Follows(Story, Plot, 3)
  {
    assert [Left(30), Left(20)][1..] == [Left(20)];
    assert [Put(10), Put(20), Put(30)] + [Event(None, false, 0, 30)] == Story(4).log;
  }

  lemma {:induction false} PutsOf(log: seq<Event>, n: nat)
    requires n <= |log|
    ensures n == 0 ==> Puts(log[..n], 0) == [] && Takes(log[..n], 0) == []
    ensures n > 0 ==> Puts(log[..n], 0) == Puts(log[..n - 1], 0) + if log[n - 1].put && log[n - 1].ch == 0 then [log[n - 1].v] else []
    ensures n > 0 ==> Takes(log[..n], 0) == Takes(log[..n - 1], 0) + if !log[n - 1].put && log[n - 1].ch == 0 then [log[n - 1].v] else []
  {
    if n > 0 {
      LogStep(log[..n - 1], log[n - 1]);
      assert log[..n] == log[..n - 1] + [log[n - 1]];
    }
  }

  lemma StoryAccount()
    ensures Puts(Story(4).log, 0) == [10, 20, 30] && Takes(Story(4).log, 0) == [30]
  {
    var log := Story(4).log;
    PutsOf(log, 0);
    PutsOf(log, 1);
    PutsOf(log, 2);
    PutsOf(log, 3);
    PutsOf(log, 4);
    assert log[..4] == log;
  }

  lemma StoryReaches()
    ensures Reaches(Story(0), Plot, Story(4))
  {
    forall i: nat | i < |Plot| ensures Follows(Story, Plot, i) {
      if i < 3 { OfferGoes(i); } else { GrabGoes(); }
    }
    StoryGoes(Story, Plot, 0);
    assert Plot[0..] == Plot;
  }

  lemma StoryBegins()
    ensures Init(Story(0)) && NoSelect(Plot)
  {
  }

  lemma NotBeginning(takes: seq<Value>, puts: seq<Value>)
    requires takes == [30] && puts == [10, 20, 30]
    ensures !(takes <= puts)
  {
    assert takes[0] != puts[0];
  }

  /** With 10, 20 and 30 accepted in this order, the pop delivers 30. */
  lemma OvertakingReachable()
    ensures Init(Story(0)) && Reaches(Story(0), Plot, Story(4)) && NoSelect(Plot)
    ensures Puts(Story(4).log, 0) == [10, 20, 30] && Takes(Story(4).log, 0) == [30] && !Delivered(Story(4), 0)
  {
    StoryReaches();
    StoryBegins();
    StoryAccount();
    NotBeginning(Takes(Story(4).log, 0), Puts(Story(4).log, 0));
  }
}
