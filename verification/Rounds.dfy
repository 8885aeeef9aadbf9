/** One round of a select, told by the push and the pop that it stands for. */
module Rounds {
  import opened Collections
  import opened ChannelSpec
  import opened Scheduler
  import opened SchedulerLaws
  import opened SchedulerSteps
  import opened SelectLaws
  import opened Runs
  import opened Answers

  /** A push would find no reader and no room, a pop no writer and no value. */
  predicate Holds(s: State, x: Case) {
    x.ch < |s.chans| && var c := s.chans[x.ch];
    !c.closed && if x.Push? then c.r == [] && |c.ring| == c.cap else c.w == [] && c.ring == []
  }

  lemma HoldsIff(s: State, x: Case)
    requires Net(s) && x.ch < |s.chans|
    ensures Holds(s, x) <==> MustWait(s.chans, x)
  {
    assert Tidy(s.chans[x.ch]);
  }

  /** The others, and all that is shared, are as they were. */
  ghost predicate OnlyOne(s: State, t: State, me: Co) {
    && t == s.(cos := t.cos, chans := t.chans, running := t.running) && |t.cos| == |s.cos|
    && forall k :: 0 <= k < |s.cos| && k != me ==> t.cos[k] == s.cos[k]
  }

  /** A select begins with the cases and the flag it is given. */
  lemma SelectBegins(s: State, cases: seq<Case>, blocked: bool, me: Co)
    requires Inv(s) && Enabled(s, SelectOp(cases, blocked)) && s.running == Some(me)
    ensures var t := Do(s, SelectOp(cases, blocked));
      && OnlyOne(s, t, me) && t.chans == s.chans && t.running == Some(me) && me < |s.cos|
      && t.cos[me] == Coroutine(Running, Choosing(cases, blocked), |s.log|, Fresh)
  {
    StaysRunning(s);
  }

  /** A waiter of `me` stands first where the case waits. */
  ghost predicate PostedFirst(c: Channel, c': Channel, me: Co, x: Case) {
    if x.Push? then c' == c.(w := [Writer(Some(me), x.ele, true)] + c.w) else c' == c.(r := [Reader(me, true)] + c.r)
  }

  /** The select waits, first in the list of every case, and nobody else is changed. */
  ghost predicate PostedAll(s: State, t: State, me: Co, cases: seq<Case>) {
    && Waits(t, me, Parked(cases)) && |t.chans| == |s.chans|
    && (forall x :: x in cases ==> x.ch < |s.chans| && PostedFirst(s.chans[x.ch], t.chans[x.ch], me, x))
    && forall ch :: 0 <= ch < |s.chans| && (forall x :: x in cases ==> x.ch != ch) ==> t.chans[ch] == s.chans[ch]
  }

  /** When every case must wait, a select that does not block returns nothing and
      leaves everything as it was; one that blocks waits. */
  lemma NothingAvailable(s: State, run: seq<Action>, s': State, me: Co)
    requires Init(s) && Reaches(s, run, s') && Enabled(s', Choose) && s'.running == Some(me)
    requires forall x :: x in Of(s', me).pc.cases ==> Holds(s', x)
    ensures var t, pc := Do(s', Choose), Of(s', me).pc;
      OnlyOne(s', t, me) && if pc.blocked then PostedAll(s', t, me, pc.cases) else Returns(t, me, NothingSelected) && t.chans == s'.chans
  {
    var pc := Of(s', me).pc;
    InitInv(s);
    RunInv(s, run, s');
    AllHold(s', pc.cases);
    if pc.blocked { ParkedPosts(s', me, pc.cases); } else { NothingReturned(s', me); }
  }

  lemma NothingReturned(s: State, me: Co)
    requires Net(s) && s.running == Some(me)
    ensures var t := Ended(s, NothingSelected); OnlyOne(s, t, me) && Returns(t, me, NothingSelected) && t.chans == s.chans
  {
    StaysRunning(s);
  }

  lemma ParkedPosts(s: State, me: Co, cases: seq<Case>)
    requires Net(s) && s.running == Some(me) && DistinctCases(s, cases)
    ensures var t := ParkedSelect(s, me, cases); OnlyOne(s, t, me) && PostedAll(s, t, me, cases)
  {
    var chans := Post(s.chans, me, cases);
    StaysRunning(s);
    PostIs(s.chans, me, cases);
    forall x | x in cases ensures x.ch < |s.chans| && PostedFirst(s.chans[x.ch], chans[x.ch], me, x) {
      var i :| 0 <= i < |cases| && cases[i] == x;
    }
    forall ch | 0 <= ch < |s.chans| && (forall x :: x in cases ==> x.ch != ch) ensures chans[ch] == s.chans[ch] {
      forall i | 0 <= i < |cases| ensures cases[i].ch != ch { assert cases[i] in cases; }
    }
  }

  lemma AllHold(s: State, cases: seq<Case>)
    requires Net(s) && DistinctCases(s, cases) && forall x :: x in cases ==> Holds(s, x)
    ensures Available(s.chans, cases) == |cases|
  {
    var i := Available(s.chans, cases);
    if i < |cases| {
      assert cases[i] in cases;
      HoldsIff(s, cases[i]);
    }
  }

  /** Place `i` is that of the first case that need not wait. */
  ghost predicate FirstGoing(s: State, cases: seq<Case>, i: nat) {
    i < |cases| && !Holds(s, cases[i]) && forall j :: 0 <= j < i ==> Holds(s, cases[j])
  }

  lemma FirstIs(s: State, cases: seq<Case>, i: nat)
    requires Net(s) && DistinctCases(s, cases) && FirstGoing(s, cases, i)
    ensures Available(s.chans, cases) == i
  {
    HoldsIff(s, cases[i]);
    var n := Available(s.chans, cases);
    if n < i { HoldsIff(s, cases[n]); }
  }

  function AsOperation(x: Case): Action {
    match x
    case Push(ch, ele) => PushOp(ch, ele, false)
    case Pop(ch) => PopOp(ch, false)
  }

  /** The event loop's round is the push or the pop of the first case that need not
      wait, without waiting; without such a case it does nothing. */
  lemma PollIs(s: State, run: seq<Action>, s': State, cases: seq<Case>)
    requires Init(s) && Reaches(s, run, s') && Enabled(s', PollOp(cases))
    ensures (forall x :: x in cases ==> Holds(s', x)) ==> Do(s', PollOp(cases)) == s'
    ensures forall i: nat :: FirstGoing(s', cases, i) ==>
              Enabled(s', AsOperation(cases[i])) && Do(s', PollOp(cases)) == Do(s', AsOperation(cases[i]))
  {
    InitInv(s);
    RunInv(s, run, s');
    if forall x :: x in cases ==> Holds(s', x) { AllHold(s', cases); }
    forall i: nat | FirstGoing(s', cases, i)
      ensures Enabled(s', AsOperation(cases[i])) && Do(s', PollOp(cases)) == Do(s', AsOperation(cases[i]))
    {
      FirstIs(s', cases, i);
      CaseIsOperation(s', cases[i]);
    }
  }

  lemma CaseIsOperation(s: State, x: Case)
    requires s.running == None && x.ch < |s.chans|
    ensures TryCase(s, x) == match x case Push(ch, ele) => PushStep(s, ch, ele, false) case Pop(ch) => PopStep(s, ch, false)
  {
    if x.Push? {
      var (t, done) := TryWrite(s, x.ch, x.ele);
      TryKeepsRunning(s, x.ch, x.ele);
    } else {
      var (t, _, value) := TryRead(s, x.ch);
      TryKeepsRunning(s, x.ch, 0);
    }
  }

  /** The select's coroutine as it would be in its own code. */
  function AsUser(s: State, me: Co): State
    requires me < |s.cos|
  {
    s.(cos := s.cos[me := s.cos[me].(pc := User)])
  }

  /** Has the operation that a case stands for gone through? */
  predicate Succeeded(x: Case, result: Result) {
    if x.Push? then result == PushDone(x.ch, x.ele) else result == PopNull || result.PopDone?
  }

  function Received(result: Result): Option<Value> {
    if result.PopDone? then Some(result.v) else None
  }

  /** The two states differ in what `me` itself has recorded. */
  ghost predicate Alike(t: State, u: State, me: Co) {
    && me < |t.cos| == |u.cos| && t == u.(cos := t.cos) && forall k :: 0 <= k < |u.cos| && k != me ==> t.cos[k] == u.cos[k]
  }

  lemma WriteAlike(s: State, b: State, me: Co, ch: nat, v: Value)
    requires Net(s) && Alike(s, b, me) && s.running == Some(me) && ch < |s.chans|
    ensures var (t, done), (u, done') := TryWrite(s, ch, v), TryWrite(b, ch, v);
      Alike(t, u, me) && done == done' && t.cos[me] == s.cos[me] && u.cos[me] == b.cos[me]
  {
    HeadReader(s, ch);
  }

  lemma ReadAlike(s: State, b: State, me: Co, ch: nat)
    requires Net(s) && Alike(s, b, me) && s.running == Some(me) && ch < |s.chans|
    ensures var (t, done, value), (u, done', value') := TryRead(s, ch), TryRead(b, ch);
      Alike(t, u, me) && done == done' && value == value' && t.cos[me] == s.cos[me] && u.cos[me] == b.cos[me]
  {
    HeadWriter(s, ch);
  }

  /** What the round of `me` on case `x` comes to, when the operation that the case
      stands for would lead to `u`. */
  ghost predicate RoundAs(s: State, t: State, u: State, me: Co, x: Case) {
    && me < |s.cos| && Alike(t, u, me)
    && t.cos[me] == if Succeeded(x, u.cos[me].result) then s.cos[me].(pc := User, result := Selected(x, Received(u.cos[me].result))) else s.cos[me]
  }

  lemma RoundPushIs(s: State, me: Co, x: Case)
    requires Net(s) && s.running == Some(me) && x.Push? && x.ch < |s.chans|
    ensures me < |s.cos| && var u := PushStep(AsUser(s, me), x.ch, x.ele, false);
      RoundAs(s, TryCase(s, x), u, me, x) && (Succeeded(x, u.cos[me].result) <==> Accepts(s.chans[x.ch]))
  {
    StaysRunning(s);
    assert Tidy(s.chans[x.ch]);
    if !s.chans[x.ch].closed {
      var b := Begun(AsUser(s, me));
      WriteAlike(s, b, me, x.ch, x.ele);
      WriteGoesIff(s.chans[x.ch], x.ele);
      TryKeepsRunning(s, x.ch, x.ele);
    }
  }

  lemma RoundPopIs(s: State, me: Co, x: Case)
    requires Net(s) && s.running == Some(me) && x.Pop? && x.ch < |s.chans|
    ensures me < |s.cos| && var u := PopStep(AsUser(s, me), x.ch, false);
      RoundAs(s, TryCase(s, x), u, me, x) && (Succeeded(x, u.cos[me].result) <==> s.chans[x.ch].closed || Gives(s.chans[x.ch]))
  {
    StaysRunning(s);
    assert Tidy(s.chans[x.ch]);
    if !s.chans[x.ch].closed {
      var b := Begun(AsUser(s, me));
      ReadAlike(s, b, me, x.ch);
      ReadGoesIff(s.chans[x.ch]);
      TryKeepsRunning(s, x.ch, 0);
      ReadShape(s, x.ch);
    }
  }

  /** When a case need not wait, a round does what a push or a pop of the first such
      case does that does not wait itself, and returns that case exactly if this goes
      through: a push if its value finds a place, a pop if there is a value or the
      channel is closed. */
  lemma RoundIs(s: State, run: seq<Action>, s': State, me: Co, i: nat)
    requires Init(s) && Reaches(s, run, s') && Enabled(s', Choose) && s'.running == Some(me) && FirstGoing(s', Of(s', me).pc.cases, i)
    ensures var x := Of(s', me).pc.cases[i];
      && me < |s'.cos| && Enabled(AsUser(s', me), AsOperation(x)) && x.ch < |s'.chans|
      && var u := Do(AsUser(s', me), AsOperation(x));
      && RoundAs(s', Do(s', Choose), u, me, x)
      && (Succeeded(x, u.cos[me].result) <==> if x.Push? then Accepts(s'.chans[x.ch]) else s'.chans[x.ch].closed || Gives(s'.chans[x.ch]))
  {
    InitInv(s);
    RunInv(s, run, s');
    var cases := Of(s', me).pc.cases;
    FirstIs(s', cases, i);
    assert Do(s', Choose) == TryCase(s', cases[i]);
    StaysRunning(s');
    if cases[i].Push? { RoundPushIs(s', me, cases[i]); } else { RoundPopIs(s', me, cases[i]); }
  }
}
