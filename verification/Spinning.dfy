/** When a step of module Scheduler waits for ever for a change of status. */
module Spinning {
  import opened Collections
  import opened ChannelSpec
  import opened Scheduler
  import opened SchedulerSteps
  import opened ClosingLaws
  import opened SelectLaws
  import opened Runs

  /** The reader that a write would serve is a select that is ready already. */
  ghost predicate ReaderReady(s: State, ch: nat) {
    ch < |s.chans| && var c := s.chans[ch];
    !c.closed && c.r != [] && c.r[0].select && Of(s, c.r[0].co).status.Ready?
  }

  ghost predicate WriterReady(s: State, ch: nat) {
    ch < |s.chans| && var c := s.chans[ch];
    !c.closed && c.w != [] && c.w[0].co.Some? && c.w[0].select && Of(s, c.w[0].co.value).status.Ready?
  }

  /** Which steps wake a coroutine that is ready already. */
  ghost predicate Spins(s: State, a: Action)
    requires Enabled(s, a)
  {
    match a
    case PushOp(ch, _, _) => ReaderReady(s, ch)
    case OfferOp(ch, _) => ReaderReady(s, ch)
    case PopOp(ch, _) => WriterReady(s, ch)
    case GrabOp(ch) => WriterReady(s, ch)
    case CloseOp(ch) => SleeperReady(s, ch)
    case Choose =>
      var cases := Of(s, s.running.value).pc.cases;
      var i := Available(s.chans, cases);
      i < |cases| && if cases[i].Push? then ReaderReady(s, cases[i].ch) else WriterReady(s, cases[i].ch)
    case PollOp(cases) =>
      var i := Available(s.chans, cases);
      i < |cases| && if cases[i].Push? then ReaderReady(s, cases[i].ch) else WriterReady(s, cases[i].ch)
    case _ => false
  }

  lemma BegunSame(s: State)
    requires Inv(s) && Free(s)
    ensures Net(Begun(s)) && Begun(s).chans == s.chans && Begun(s).running == s.running && Begun(s).stuck == s.stuck
    ensures forall k :: Of(Begun(s), k).status == Of(s, k).status
  {
    BegunMid(s);
  }

  /** After an attempt the operation itself changes no status but from Running. */
  lemma PushSpins(s: State, ch: nat, v: Value, blocked: bool)
    requires Inv(s) && Free(s) && !s.stuck && ch < |s.chans| && (blocked ==> s.running.Some?)
    ensures PushStep(s, ch, v, blocked).stuck <==> ReaderReady(s, ch)
    ensures OfferStep(s, ch, v).stuck <==> ReaderReady(s, ch)
  {
    if !s.chans[ch].closed {
      var b := Begun(s);
      BegunMid(s);
      BegunSame(s);
      WriteSpinsIff(b, ch, v);
      var (t, done) := TryWrite(b, ch, v);
      if !t.stuck {
        WriteMid(b, ch, v);
        StaysRunning(t);
      }
      AfterPushSpins(t, done, ch, v, blocked);
    }
  }

  lemma AfterPushSpins(t: State, done: bool, ch: nat, v: Value, blocked: bool)
    requires ch < |t.chans|
    requires !t.stuck && t.running.Some? ==> Of(t, t.running.value).status.Running?
    ensures AfterPush(t, done, ch, v, blocked).stuck <==> t.stuck
    ensures Ended(if done then t else LeftBehind(t, ch, v), PushDone(ch, v)).stuck <==> t.stuck
  {
  }

  lemma PopSpins(s: State, ch: nat, blocked: bool)
    requires Inv(s) && Free(s) && !s.stuck && ch < |s.chans| && (blocked ==> s.running.Some?)
    ensures PopStep(s, ch, blocked).stuck <==> WriterReady(s, ch)
    ensures GrabStep(s, ch).stuck <==> WriterReady(s, ch)
  {
    if !s.chans[ch].closed {
      var b := Begun(s);
      BegunMid(s);
      BegunSame(s);
      ReadSpinsIff(b, ch);
      var (t, _, value) := TryRead(b, ch);
      TryKeepsRunning(b, ch, 0);
      if !t.stuck {
        ReadMid(b, ch);
        StaysRunning(t);
      }
      AfterPopSpins(t, value, ch, blocked);
      AfterPopSpins(t, value, ch, false);
    }
  }

  lemma AfterPopSpins(t: State, value: Option<Value>, ch: nat, blocked: bool)
    requires ch < |t.chans| && (blocked ==> t.running.Some?)
    requires !t.stuck && t.running.Some? ==> Of(t, t.running.value).status.Running?
    ensures AfterPop(t, value, ch, blocked).stuck <==> t.stuck
  {
  }

  lemma CloseSpins(s: State, ch: nat)
    requires Inv(s) && Free(s) && !s.stuck && ch < |s.chans|
    ensures CloseStep(s, ch).stuck <==> SleeperReady(s, ch)
  {
    BegunSame(s);
    if s.chans[ch].closed {
      assert Tidy(s.chans[ch]);
      assert Sleepers(s.chans[ch]) == [];
    } else {
      CloseSpinsIff(Begun(s), ch);
      assert forall k :: Of(Begun(s), k).status == Of(s, k).status;
      assert SleeperReady(Begun(s), ch) <==> SleeperReady(s, ch);
    }
  }

  lemma TryCaseSpins(s: State, x: Case)
    requires Net(s) && !s.stuck && x.ch < |s.chans|
    ensures TryCase(s, x).stuck <==> if x.Push? then ReaderReady(s, x.ch) else WriterReady(s, x.ch)
  {
    if x.Push? { WriteSpinsIff(s, x.ch, x.ele); } else { ReadSpinsIff(s, x.ch); }
  }

  lemma ChooseSpins(s: State)
    requires Inv(s) && Enabled(s, Choose)
    ensures Do(s, Choose).stuck <==> Spins(s, Choose)
  {
    var me, cases := s.running.value, Of(s, s.running.value).pc.cases;
    var i := Available(s.chans, cases);
    StaysRunning(s);
    if i < |cases| { TryCaseSpins(s, cases[i]); }
  }

  lemma PollSpins(s: State, cases: seq<Case>)
    requires Inv(s) && Enabled(s, PollOp(cases))
    ensures PollStep(s, cases).stuck <==> Spins(s, PollOp(cases))
  {
    var i := Available(s.chans, cases);
    if i < |cases| { TryCaseSpins(s, cases[i]); }
  }

  lemma QuietSteps(s: State, a: Action)
    requires Inv(s) && Enabled(s, a)
    requires a.SelectOp? || a.YieldOp? || a.FinishOp? || a.JoinOp? || a.EndPass?
    ensures !Do(s, a).stuck
  {
    StaysRunning(s);
  }

  /** In every reachable state a step spins exactly if it wakes a coroutine that is
      parked in a select and ready already: a push or a pop that meets it first, a
      close of a channel where it still stands, or a round of a select that picks
      such a push or pop. */
  lemma StepSpinsIff(s: State, run: seq<Action>, s': State, a: Action)
    requires Init(s) && Reaches(s, run, s') && Enabled(s', a)
    ensures Do(s', a).stuck <==> Spins(s', a)
  {
    InitInv(s);
    RunInv(s, run, s');
    match a {
      case PushOp(ch, v, blocked) => PushSpins(s', ch, v, blocked);
      case OfferOp(ch, v) => PushSpins(s', ch, v, false);
      case PopOp(ch, blocked) => PopSpins(s', ch, blocked);
      case GrabOp(ch) => PopSpins(s', ch, false);
      case CloseOp(ch) => CloseSpins(s', ch);
      case Choose => ChooseSpins(s');
      case PollOp(cases) => PollSpins(s', cases);
      case Resume => ResumeInv(s');
      case _ => QuietSteps(s', a);
    }
  }

  // ---------- an input ----------

  /** Two channels without a ring, on which `r0` and `r1` wait, and two coroutines. */
  function Pair(r0: seq<Reader>, r1: seq<Reader>, k0: Coroutine, k1: Coroutine, rq: seq<Co>, running: Option<Co>): State {
    State([Channel(0, [], [], r0, false), Channel(0, [], [], r1, false)], [k0, k1], rq, [], running, [], false)
  }

  const Asleep := Coroutine(Starting, User, 0, Fresh)
  const Awake := Coroutine(Running, User, 0, Fresh)
  const Cases := [Pop(0), Pop(1)]
  const Selecting := Coroutine(Running, Choosing(Cases, true), 0, Fresh)
  const Selector := Reader(0, true)

  /** Coroutine 0 selects between two pops and parks; coroutine 1 pushes to the first
      channel, which wakes it. */
  function Story(i: nat): State {
    match i
    case 0 => Pair([], [], Asleep, Asleep, [], None)
    case 1 => Pair([], [], Asleep, Asleep, [0], None)
    case 2 => Pair([], [], Asleep, Asleep, [0, 1], None)
    case 3 => Pair([], [], Awake, Asleep, [1], Some(0))
    case 4 => Pair([], [], Selecting, Asleep, [1], Some(0))
    case 5 => Pair([Selector], [Selector], Coroutine(Waiting, Parked(Cases), 0, Fresh), Asleep, [1], None)
    case 6 => Pair([Selector], [Selector], Coroutine(Waiting, Parked(Cases), 0, Fresh), Awake, [], Some(1))
    case _ => Pair([], [Selector], Coroutine(Ready, Parked(Cases), 0, Fresh), Coroutine(Running, User, 0, PushNotDone), [0], Some(1))
  }

  const Plot := [JoinOp(0), JoinOp(1), Resume, SelectOp(Cases, true), Choose, Resume, PushOp(0, 7, false)]

  lemma BeforeSelect(i: nat)
    requires i < 4
    ensures Follows(Story, Plot, i)
  {
  }

  lemma Parking()
    ensures Follows(Story, Plot, 4)
  {
    var s := Story(4);
    BothWait(s.chans, Cases);
    BothPosted(s.chans[0]);
    ParksBoth(s);
  }

  lemma BothWait(chans: seq<Channel>, cases: seq<Case>)
    requires |cases| == 2 && cases[0].ch < |chans| && cases[1].ch < |chans|
    requires MustWait(chans, cases[0]) && MustWait(chans, cases[1])
    ensures Available(chans, cases) == 2
  {
  }

  lemma ParksBoth(s: State)
    requires s.running == Some(0) && |s.cos| > 0 && s.cos[0] == Selecting && |s.chans| == 2
    requires Available(s.chans, Cases) == 2
    ensures ChooseStep(s, 0, Cases, true) ==
            s.(cos := s.cos[0 := Coroutine(Waiting, Parked(Cases), 0, Fresh)], running := None, chans := Post(s.chans, 0, Cases))
  {
  }

  lemma BothPosted(c: Channel)
    requires c == Channel(0, [], [], [], false)
    ensures Post([c, c], 0, Cases) == [c.(r := [Selector]), c.(r := [Selector])]
  {
    PostIs([c, c], 0, Cases);
    var out := Post([c, c], 0, Cases);
    assert [Selector] + c.r == [Selector];
    assert out[Cases[0].ch] == PostOne(c, 0, Cases[0]);
    assert out[Cases[1].ch] == PostOne(c, 0, Cases[1]);
    assert out[0] == c.(r := [Selector]) && out[1] == c.(r := [Selector]);
  }

  lemma AfterSelect(i: nat)
    requires 5 <= i < 7
    ensures Follows(Story, Plot, i)
  {
    assert Story(5).rq[1..] == [] && [Selector][1..] == [];
  }

  lemma EachFollows(i: nat)
    requires i < 7
    ensures Follows(Story, Plot, i)
  {
    if i < 4 { BeforeSelect(i); } else if i == 4 { Parking(); } else { AfterSelect(i); }
  }

  lemma StoryReaches()
    ensures Init(Story(0)) && Reaches(Story(0), Plot, Story(7))
  {
    forall i: nat | i < |Plot| ensures Follows(Story, Plot, i) { EachFollows(i); }
    StoryGoes(Story, Plot, 0);
    assert Plot[0..] == Plot;
  }

  lemma WokenAtSecond()
    ensures ReaderReady(Story(7), 1) && SleeperReady(Story(7), 1)
  {
    var s := Story(7);
    assert 0 in Sleepers(s.chans[1]) by { ReaderCosAre(s.chans[1].r); }
  }

  /** A state that is reached, and in which a close of the second channel, where the
      woken select still stands, spins, and so does a push to it. */
  lemma SpinReachable()
    ensures Init(Story(0)) && Reaches(Story(0), Plot, Story(7)) && !Story(7).stuck
    ensures Enabled(Story(7), CloseOp(1)) && Do(Story(7), CloseOp(1)).stuck
    ensures forall v :: Enabled(Story(7), PushOp(1, v, false)) && Do(Story(7), PushOp(1, v, false)).stuck
  {
    StoryReaches();
    WokenAtSecond();
    var s := Story(7);
    StepSpinsIff(Story(0), Plot, s, CloseOp(1));
    forall v ensures Do(s, PushOp(1, v, false)).stuck {
      StepSpinsIff(Story(0), Plot, s, PushOp(1, v, false));
    }
  }
}
