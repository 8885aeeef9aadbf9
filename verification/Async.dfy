/** The wake-up protocol of src/lc_async.c with its consumer in
    src/platform/linux/lc_eloop.c: any number of senders and one consumer share a
    status word per handler and one signal.  Every access to shared memory is a
    step of its own, and steps of different threads mix freely.  A send made by a
    callback is a sender that happens to move while the consumer is `Calling`. */
module Async {

  datatype Status = NoPadding | Working | Done

  /** Where a sender is: about to read the status, about to claim after it saw
      NoPadding, about to write the signal, about to hand over; `Failed` when that
      last exchange did not succeed. */
  datatype Stage = Idle | Reads | Tries | Signals | HandsOver | Failed

  /** A sender to handler `h`. */
  datatype Sender = Sender(stage: Stage, h: nat)

  /** Where the consumer is: waiting for the signal, about to read the status of
      handler `i`, having read that it is not `Working`, or running its callback. */
  datatype Consumer = Waiting | Scan(i: nat) | Swap(i: nat) | Calling(i: nat)

  /** A send that returned success; `since` counts the times `h` had been taken
      back when it did. */
  datatype Sent = Sent(h: nat, since: nat)

  datatype State = State(
    bound: seq<bool>,         // which handlers have a callback
    status: seq<Status>,
    signal: bool,
    senders: seq<Sender>,
    consumer: Consumer,
    claims: seq<nat>,         // successful claims of each handler
    served: seq<nat>,         // times the consumer took each handler back
    calls: seq<nat>,          // callbacks begun
    sent: set<Sent>)

  datatype Action = Begin(t: nat, h: nat) | Send(t: nat) | Consume

  ghost predicate Shape(s: State) {
    |s.status| == |s.bound| == |s.claims| == |s.served| == |s.calls|
    && forall t :: 0 <= t < |s.senders| ==> s.senders[t].stage.Idle? || s.senders[t].h < |s.status|
  }

  ghost predicate Init(s: State) {
    && Shape(s) && !s.signal && s.consumer == Waiting && s.sent == {}
    && (forall h :: 0 <= h < |s.status| ==> s.status[h] == NoPadding && s.claims[h] == s.served[h] == s.calls[h] == 0)
    && forall t :: 0 <= t < |s.senders| ==> s.senders[t].stage.Idle?
  }

  predicate Enabled(s: State, a: Action) {
    match a
    case Begin(t, h) => t < |s.senders| && s.senders[t].stage.Idle? && h < |s.status|
    case Send(t) => t < |s.senders| && !s.senders[t].stage.Idle? && !s.senders[t].stage.Failed?
    case Consume => s.consumer.Waiting? ==> s.signal
  }

  /** One step of `liteco_async_send`: where it leaves the sender, and the rest. */
  function SendStep(s: State, p: Sender): (State, Stage)
    requires Shape(s) && p.h < |s.status|
  {
    var sent := s.sent + {Sent(p.h, s.served[p.h])};
    match p.stage
    case Reads =>
      if s.status[p.h] != NoPadding then (s.(sent := sent), Idle) else (s, Tries)
    case Tries =>
      if s.status[p.h] != NoPadding then (s.(sent := sent), Idle)
      else (s.(status := s.status[p.h := Working], claims := s.claims[p.h := s.claims[p.h] + 1]), Signals)
    case Signals => (s.(signal := true), HandsOver)
    case HandsOver =>
      if s.status[p.h] != Working then (s, Failed)
      else (s.(status := s.status[p.h := Done], sent := sent), Idle)
    case _ => (s, p.stage)
  }

  /** One step of `liteco_async_io_cb` and `liteco_async_spin`; the step that reads
      `Working` changes nothing and is taken again. */
  function ConsumeStep(s: State): State
    requires Shape(s)
  {
    match s.consumer
    case Waiting => s.(signal := false, consumer := Scan(0))
    case Scan(i) =>
      if i >= |s.status| then s.(consumer := Waiting)
      else if s.status[i] == Working then s
      else s.(consumer := Swap(i))
    case Swap(i) =>
      if i >= |s.status| || s.status[i] != Done then s.(consumer := Scan(i + 1))
      else
        var s := s.(status := s.status[i := NoPadding], served := s.served[i := s.served[i] + 1]);
        if s.bound[i] then s.(calls := s.calls[i := s.calls[i] + 1], consumer := Calling(i))
        else s.(consumer := Scan(i + 1))
    case Calling(i) => s.(consumer := Scan(i + 1))
  }

  function Step(s: State, a: Action): State
    requires Shape(s) && Enabled(s, a)
  {
    match a
    case Begin(t, h) => s.(senders := s.senders[t := Sender(Reads, h)])
    case Send(t) =>
      var (s', stage) := SendStep(s, s.senders[t]);
      s'.(senders := s.senders[t := s.senders[t].(stage := stage)])
    case Consume => ConsumeStep(s)
  }

  /** `s'` is reached from `s` by the actions `run`. */
  ghost predicate Reaches(s: State, run: seq<Action>, s': State)
    decreases |run|
  {
    if run == [] then s == s'
    else Shape(s) && Enabled(s, run[0]) && Reaches(Step(s, run[0]), run[1..], s')
  }

  // ---------- the invariant ----------

  /** The sender holds the claim of its handler. */
  predicate Holds(p: Sender) {
    p.stage.Signals? || p.stage.HandsOver?
  }

  /** The scan in progress has yet to examine handler `h`. */
  predicate StillAhead(s: State, h: nat)
    requires h < |s.status|
  {
    match s.consumer
    case Waiting => false
    case Scan(i) => i <= h
    case Swap(i) => i < h || (i == h && s.status[h] == Done)
    case Calling(i) => i < h
  }

  /** A sender that holds a claim finds its handler Working, and what it signalled
      will be seen. */
  ghost predicate SenderOk(s: State, p: Sender)
    requires Shape(s)
  {
    p.stage.Idle? || (p.h < |s.status| && !p.stage.Failed?
      && (Holds(p) ==> s.status[p.h] == Working)
      && (p.stage.HandsOver? ==> s.signal || StillAhead(s, p.h)))
  }

  /** Callbacks and claims agree, and what is done will be seen. */
  ghost predicate HandlerOk(s: State, h: nat)
    requires Shape(s) && h < |s.status|
  {
    && s.served[h] + (if s.status[h] == NoPadding then 0 else 1) == s.claims[h]
    && s.calls[h] == (if s.bound[h] then s.served[h] else 0)
    && (s.status[h] == Done ==> s.signal || StillAhead(s, h))
  }

  ghost predicate Held(s: State, h: nat) {
    exists t :: 0 <= t < |s.senders| && Holds(s.senders[t]) && s.senders[t].h == h
  }

  predicate Apart(p: Sender, q: Sender) {
    !(Holds(p) && Holds(q) && p.h == q.h)
  }

  ghost predicate Inv(s: State) {
    && Shape(s)
    && (forall t :: 0 <= t < |s.senders| ==> SenderOk(s, s.senders[t]))
    && (forall h :: 0 <= h < |s.status| ==> HandlerOk(s, h))
    // one sender at most, and one if the handler is Working, holds a claim
    && (forall t, u :: 0 <= t < u < |s.senders| ==> Apart(s.senders[t], s.senders[u]))
    && (forall h :: 0 <= h < |s.status| && s.status[h] == Working ==> Held(s, h))
    // sends that returned are behind the claims
    && forall x :: x in s.sent ==> x.h < |s.status| && x.since < s.claims[x.h]
  }

  lemma InitInv(s: State)
    requires Init(s)
    ensures Inv(s)
  {
  }

  /** The other senders, the handlers and the record after a step of sender `p`. */
  lemma SendKeeps(s: State, p: Sender, q: Sender, h: nat, x: Sent)
    requires Shape(s) && SenderOk(s, p) && !p.stage.Idle? && SenderOk(s, q) && Apart(p, q)
    requires h < |s.status| && HandlerOk(s, h) && HandlerOk(s, p.h) && (x in s.sent ==> x.h < |s.status| && x.since < s.claims[x.h])
    ensures var (s', stage) := SendStep(s, p);
      && SenderOk(s', q) && HandlerOk(s', h) && SenderOk(s', p.(stage := stage)) && Apart(p.(stage := stage), q)
      && (x in s'.sent ==> x.h < |s'.status| && x.since < s'.claims[x.h])
      && (s'.status[h] == Working ==> s.status[h] == Working || (h == p.h && Holds(p.(stage := stage))))
      && (h == p.h && Holds(p) && !Holds(p.(stage := stage)) ==> s'.status[h] != Working)
  {
  }

  lemma ConsumeKeeps(s: State, q: Sender, h: nat)
    requires Shape(s) && SenderOk(s, q) && (Enabled(s, Consume)) && h < |s.status| && HandlerOk(s, h)
    requires q.stage.Idle? || HandlerOk(s, q.h)
    ensures var s' := ConsumeStep(s);
      && Shape(s') && SenderOk(s', q) && HandlerOk(s', h)
      && s'.senders == s.senders && s'.sent == s.sent && s'.claims == s.claims && (s'.status[h] == Working <==> s.status[h] == Working)
  {
    ConsumeHandler(s, h);
  }

  lemma ConsumeHandler(s: State, h: nat)
    requires Shape(s) && Enabled(s, Consume) && h < |s.status| && HandlerOk(s, h)
    ensures var s' := ConsumeStep(s); Shape(s') && HandlerOk(s', h) && (s'.status[h] == Working <==> s.status[h] == Working)
  {
  }

  lemma {:induction false} SendSenders(s: State, t: nat)
    requires Inv(s) && Enabled(s, Send(t))
    ensures var s' := Step(s, Send(t));
      && Shape(s') && (forall u :: 0 <= u < |s'.senders| ==> SenderOk(s', s'.senders[u]))
      && (forall u, v :: 0 <= u < v < |s'.senders| ==> Apart(s'.senders[u], s'.senders[v]))
  {
    var s', p := Step(s, Send(t)), s.senders[t];
    forall u | 0 <= u < |s.senders|
      ensures SenderOk(s', s'.senders[u]) && (u != t ==> Apart(s'.senders[t], s'.senders[u]))
    {
      SendSender(s, t, u);
    }
  }

  lemma SendSender(s: State, t: nat, u: nat)
    requires Inv(s) && Enabled(s, Send(t)) && u < |s.senders|
    ensures var s' := Step(s, Send(t));
      && Shape(s') && SenderOk(s', s'.senders[u]) && (u != t ==> Apart(s'.senders[t], s'.senders[u]))
  {
    var p := s.senders[t];
    assert HandlerOk(s, p.h) && SenderOk(s, p) && SenderOk(s, s.senders[u]);
    if u == t {
      SendKeeps(s, p, Sender(Idle, 0), p.h, Sent(0, 0));
    } else {
      assert Apart(p, s.senders[u]);
      SendKeeps(s, p, s.senders[u], p.h, Sent(0, 0));
    }
  }

  lemma {:induction false} SendInv(s: State, t: nat)
    requires Inv(s) && Enabled(s, Send(t))
    ensures Inv(Step(s, Send(t)))
  {
    var s', p := Step(s, Send(t)), s.senders[t];
    var idle := Sender(Idle, 0);
    SendSenders(s, t);
    assert HandlerOk(s, p.h);
    forall h | 0 <= h < |s.status|
      ensures HandlerOk(s', h) && (s'.status[h] == Working ==> Held(s', h))
    {
      SendKeeps(s, p, idle, h, Sent(0, 0));
      if s'.status[h] == Working {
        if s.status[h] == Working {
          var u :| 0 <= u < |s.senders| && Holds(s.senders[u]) && s.senders[u].h == h;
          assert Holds(s'.senders[u]) && s'.senders[u].h == h;
        } else {
          assert Holds(s'.senders[t]) && s'.senders[t].h == h;
        }
      }
    }
    forall x | x in s'.sent ensures x.h < |s'.status| && x.since < s'.claims[x.h] {
      SendKeeps(s, p, idle, p.h, x);
    }
  }

  lemma {:induction false} ConsumeInv(s: State)
    requires Inv(s) && Enabled(s, Consume)
    ensures Inv(ConsumeStep(s))
  {
    var s' := ConsumeStep(s);
    forall h | 0 <= h < |s.status| ensures HandlerOk(s', h) && (s'.status[h] == Working ==> Held(s', h)) {
      ConsumeKeeps(s, Sender(Idle, 0), h);
      if s.status[h] == Working {
        var u :| 0 <= u < |s.senders| && Holds(s.senders[u]) && s.senders[u].h == h;
        assert Holds(s'.senders[u]) && s'.senders[u].h == h;
      }
    }
    forall u | 0 <= u < |s.senders| ensures SenderOk(s', s'.senders[u]) {
      if !s.senders[u].stage.Idle? {
        ConsumeKeeps(s, s.senders[u], s.senders[u].h);
      }
    }
  }

  lemma {:induction false} BeginInv(s: State, t: nat, h: nat)
    requires Inv(s) && Enabled(s, Begin(t, h))
    ensures Inv(Step(s, Begin(t, h)))
  {
    var s' := Step(s, Begin(t, h));
    forall h | 0 <= h < |s.status| && s.status[h] == Working ensures Held(s', h) {
      var u :| 0 <= u < |s.senders| && Holds(s.senders[u]) && s.senders[u].h == h;
      assert Holds(s'.senders[u]) && s'.senders[u].h == h;
    }
    forall h | 0 <= h < |s.status| ensures HandlerOk(s', h) {
      assert HandlerOk(s, h);
    }
  }

  lemma StepInv(s: State, a: Action)
    requires Inv(s) && Enabled(s, a)
    ensures Inv(Step(s, a))
  {
    match a
    case Begin(t, h) => BeginInv(s, t, h);
    case Send(t) => SendInv(s, t);
    case Consume => ConsumeInv(s);
  }

  lemma {:induction false} RunInv(s: State, run: seq<Action>, s': State)
    requires Inv(s) && Reaches(s, run, s')
    ensures Inv(s')
    decreases |run|
  {
    if run != [] {
      StepInv(s, run[0]);
      RunInv(Step(s, run[0]), run[1..], s');
    }
  }

  // ---------- what every run keeps ----------

  /** In every reachable state the last exchange of a send would succeed. */
  lemma HandOverSucceeds(s: State, run: seq<Action>, s': State, t: nat)
    requires Init(s) && Reaches(s, run, s') && t < |s'.senders|
    ensures !s'.senders[t].stage.Failed?
    ensures s'.senders[t].stage.HandsOver? ==> s'.senders[t].h < |s'.status| && s'.status[s'.senders[t].h] == Working
  {
    InitInv(s);
    RunInv(s, run, s');
    assert SenderOk(s', s'.senders[t]);
  }

  lemma CallbacksMatchClaims(s: State, run: seq<Action>, s': State, h: nat)
    requires Init(s) && Reaches(s, run, s') && Shape(s') && h < |s'.status| && s'.bound[h]
    ensures s'.calls[h] + (if s'.status[h] == NoPadding then 0 else 1) == s'.claims[h]
  {
    InitInv(s);
    RunInv(s, run, s');
    assert HandlerOk(s', h);
  }

  ghost predicate Quiescent(s: State) {
    !s.signal && s.consumer == Waiting && forall t :: 0 <= t < |s.senders| ==> s.senders[t].stage.Idle?
  }

  /** No send is lost: once everything has come to rest, a callback has begun after
      every send that returned. */
  lemma NoLostSend(s: State, run: seq<Action>, s': State, x: Sent)
    requires Init(s) && Reaches(s, run, s') && Quiescent(s') && x in s'.sent
    ensures Shape(s') && x.h < |s'.status| && s'.status[x.h] == NoPadding
    ensures s'.served[x.h] > x.since && (s'.bound[x.h] ==> s'.calls[x.h] > x.since)
  {
    InitInv(s);
    RunInv(s, run, s');
    assert HandlerOk(s', x.h);
  }

  /** A send that returns is on record from then on. */
  lemma ReturnRecorded(s: State, t: nat)
    requires Inv(s) && Enabled(s, Send(t)) && Step(s, Send(t)).senders[t].stage.Idle?
    ensures Sent(s.senders[t].h, s.served[s.senders[t].h]) in Step(s, Send(t)).sent
  {
    assert SenderOk(s, s.senders[t]);
  }

  lemma {:induction false} RecordGrows(s: State, run: seq<Action>, s': State)
    requires Inv(s) && Reaches(s, run, s')
    ensures s.sent <= s'.sent
    decreases |run|
  {
    if run != [] {
      StepInv(s, run[0]);
      RecordGrows(Step(s, run[0]), run[1..], s');
    }
  }

  lemma ServedGrows(s: State, a: Action, h: nat)
    requires Inv(s) && Enabled(s, a) && h < |s.served|
    ensures h < |Step(s, a).served| && s.served[h] <= Step(s, a).served[h]
  {
  }

  lemma {:induction false} Answered(s: State, t: nat, run: seq<Action>, s': State)
    requires Inv(s) && t < |s.senders| && !s.senders[t].stage.Idle? && Reaches(s, run, s') && Quiescent(s')
    ensures var h := s.senders[t].h; h < |s.served| == |s'.served| && s'.served[h] > s.served[h]
    decreases |run|
  {
    assert SenderOk(s, s.senders[t]);
    if run != [] {
      var u, h := Step(s, run[0]), s.senders[t].h;
      StepInv(s, run[0]);
      if u.senders[t].stage.Idle? {
        ReturnRecorded(s, t);
        RecordGrows(u, run[1..], s');
        RunInv(u, run[1..], s');
        SizesStay(s, run, s');
        assert HandlerOk(s', h);
      } else {
        assert u.senders[t].h == h;
        ServedGrows(s, run[0], h);
        Answered(u, t, run[1..], s');
      }
    }
  }

  lemma {:induction false} SizesStay(s: State, run: seq<Action>, s': State)
    requires Inv(s) && Reaches(s, run, s')
    ensures |s'.status| == |s.status| && s'.bound == s.bound
    decreases |run|
  {
    if run != [] {
      StepInv(s, run[0]);
      SizesStay(Step(s, run[0]), run[1..], s');
    }
  }

  /** Whoever sends, and however the threads mix: when everything has come to rest, the
      handler was taken back, and its callback begun, after the send began. */
  lemma SendAnswered(s: State, run: seq<Action>, s1: State, t: nat, h: nat, more: seq<Action>, s2: State)
    requires Init(s) && Reaches(s, run, s1) && Shape(s1) && Enabled(s1, Begin(t, h)) && Reaches(Step(s1, Begin(t, h)), more, s2) && Quiescent(s2)
    ensures Shape(s2) && |s2.status| == |s1.status| && s2.bound == s1.bound
    ensures s2.served[h] > s1.served[h] && (s1.bound[h] ==> s2.calls[h] > s1.calls[h])
  {
    InitInv(s);
    RunInv(s, run, s1);
    StepInv(s1, Begin(t, h));
    Answered(Step(s1, Begin(t, h)), t, more, s2);
    RunInv(Step(s1, Begin(t, h)), more, s2);
    SizesStay(Step(s1, Begin(t, h)), more, s2);
    assert HandlerOk(s1, h) && HandlerOk(s2, h);
  }

  // ---------- everything comes to rest ----------

  /** The steps a sender has left. */
  function Left(p: Sender): nat {
    match p.stage
    case Idle | Failed => 0
    case Reads => 4
    case Tries => 3
    case Signals => 2
    case HandsOver => 1
  }

  function AllLeft(senders: seq<Sender>): nat {
    if senders == [] then 0 else AllLeft(senders[..|senders| - 1]) + Left(senders[|senders| - 1])
  }

  function ScanLeft(s: State): nat {
    var n := |s.status|;
    match s.consumer
    case Waiting => 0
    case Scan(i) => if i <= n then 3 * (n - i) + 3 else 1
    case Swap(i) => if i < n then 3 * (n - i) + 2 else 2
    case Calling(i) => if i < n then 3 * (n - i) + 1 else 2
  }

  lemma {:induction false} AllLeftStep(senders: seq<Sender>, t: nat, p: Sender)
    requires t < |senders|
    ensures AllLeft(senders[t := p]) + Left(senders[t]) == AllLeft(senders) + Left(p)
    decreases |senders|
  {
    var n := |senders| - 1;
    if t < n {
      AllLeftStep(senders[..n], t, p);
      assert senders[t := p][..n] == senders[..n][t := p];
    } else {
      assert senders[t := p][..n] == senders[..n];
    }
  }

  /** The consumer finds a handler being claimed and tries again. */
  predicate Spins(s: State, a: Action) {
    a == Consume && s.consumer.Scan? && s.consumer.i < |s.status| && s.status[s.consumer.i] == Working
  }

  /** Every step but a new send or a spin brings the system closer to rest. */
  lemma {:induction false} StepsRunOut(s: State, a: Action)
    requires Inv(s) && Enabled(s, a) && !a.Begin? && !Spins(s, a)
    ensures var s' := Step(s, a);
      || AllLeft(s'.senders) < AllLeft(s.senders)
      || (AllLeft(s'.senders) == AllLeft(s.senders) && s.signal && !s'.signal)
      || (AllLeft(s'.senders) == AllLeft(s.senders) && s.signal == s'.signal && ScanLeft(s') < ScanLeft(s))
  {
    if a.Send? {
      AllLeftStep(s.senders, a.t, Step(s, a).senders[a.t]);
    }
  }

  /** As long as the system is not at rest, such a step is possible: the consumer
      spins only while the sender that holds the claim can move. */
  lemma {:induction false} NeverStuck(s: State) returns (a: Action)
    requires Inv(s) && !Quiescent(s)
    ensures Enabled(s, a) && !a.Begin? && !Spins(s, a)
  {
    if t: nat :| t < |s.senders| && !s.senders[t].stage.Idle? {
      a := Send(t);
    } else {
      a := Consume;
    }
  }

  /** From every reachable state the pending sends alone lead to rest. */
  lemma {:induction false} ComesToRest(s: State) returns (run: seq<Action>, s': State)
    requires Inv(s)
    ensures Reaches(s, run, s') && Quiescent(s') && Inv(s')
    ensures forall i :: 0 <= i < |run| ==> !run[i].Begin?
    decreases AllLeft(s.senders), s.signal, ScanLeft(s)
  {
    if Quiescent(s) {
      return [], s;
    }
    var a := NeverStuck(s);
    StepsRunOut(s, a);
    StepInv(s, a);
    var rest;
    rest, s' := ComesToRest(Step(s, a));
    run := [a] + rest;
    assert run[1..] == rest;
  }
}
