/** The ready queue of src/lc_runtime.c, and how it and the wake-up protocol keep
    every queued coroutine in sight of the event loop. */
module ReadyQueue {
  import opened Collections
  import opened LinkedLists

  type Co = nat

  /** Last in the queue, unless it is there already. */
  function Enqueue(q: seq<Co>, co: Co): seq<Co> {
    if co in q then q else q + [co]
  }

  function Merge(q: seq<Co>, later: seq<Co>): seq<Co>
    decreases |later|
  {
    if later == [] then q else Merge(Enqueue(q, later[0]), later[1..])
  }

  lemma {:induction false} MergeExtends(q: seq<Co>, later: seq<Co>)
    ensures q <= Merge(q, later)
    decreases |later|
  {
    if later != [] {
      MergeExtends(Enqueue(q, later[0]), later[1..]);
    }
  }

  /** What the merge adds stands behind what was there, nothing twice. */
  lemma {:induction false} MergeIs(q: seq<Co>, later: seq<Co>)
    requires Distinct(q)
    ensures Distinct(Merge(q, later)) && q <= Merge(q, later)
    ensures forall co :: co in Merge(q, later) <==> co in q || co in later
    decreases |later|
  {
    if later != [] {
      MergeIs(Enqueue(q, later[0]), later[1..]);
    }
  }

  /** Coroutines that are all different, and new, keep their order. */
  lemma {:induction false} MergeNew(q: seq<Co>, later: seq<Co>)
    requires Distinct(q + later)
    ensures Merge(q, later) == q + later
    decreases |later|
  {
    if later != [] {
      assert (q + later)[|q|] == later[0] && forall i :: 0 <= i < |q| ==> (q + later)[i] == q[i];
      assert q + later == q + [later[0]] + later[1..];
      MergeNew(q + [later[0]], later[1..]);
    } else {
      assert q + later == q;
    }
  }

  lemma Joined(q: seq<Co>, ks: seq<Co>)
    requires Distinct(q) && Distinct(ks) && forall k :: k in ks ==> k !in q
    ensures Distinct(q + ks)
  {
    var r := q + ks;
    forall i, j | 0 <= i < j < |r| ensures r[i] != r[j] {
      if i < |q| <= j { assert r[j] == ks[j - |q|] && ks[j - |q|] in ks && r[i] == q[i]; }
    }
  }

  class Runtime {
    const rq: List<Co>

    ghost predicate Valid()
      reads this, rq, rq.Repr
    {
      rq.Valid() && this !in rq.Repr && Distinct(rq.items)
    }

    constructor ()
      ensures Valid() && fresh(rq.Repr) && rq.items == []
    {
      rq := new List(0);
    }

    /** Walks along the queue. */
    method Exist(co: Co) returns (found: bool)
      requires Valid()
      ensures found <==> co in rq.items
    {
      ghost var i := 0;
      rq.After(0);
      var check := rq.head.next;
      while check != rq.head
        invariant i <= |rq.nodes| == |rq.items| && co !in rq.items[..i]
        invariant check == if i < |rq.nodes| then rq.nodes[i] else rq.head
        invariant check == rq.head <==> i == |rq.nodes|
        decreases |rq.nodes| - i
      {
        rq.After(i);
        if check.item == co {
          return true;
        }
        i := i + 1;
        rq.After(i);
        check := check.next;
      }
      return false;
    }

    /** `send` tells whether the event loop is to be woken. */
    method Join(co: Co) returns (send: bool)
      requires Valid()
      modifies rq.Repr
      ensures Valid() && fresh(rq.Repr - old(rq.Repr))
      ensures rq.items == Enqueue(old(rq.items), co) && (send <==> rq.items != old(rq.items))
    {
      var found := Exist(co);
      if found {
        return false;
      }
      rq.Append(co);
      return true;
    }

    method Pop() returns (co: Co, some: bool)
      requires Valid()
      modifies rq.Repr
      ensures Valid() && rq.Repr == old(rq.Repr)
      ensures some == (old(rq.items) != []) && (if some then old(rq.items) == [co] + rq.items else rq.items == [])
    {
      if rq.IsEmpty() {
        return 0, false;
      }
      ghost var q := rq.items;
      co := rq.TakeFirst();
      some := true;
      assert forall i :: 0 <= i < |rq.items| ==> rq.items[i] == q[i + 1];
    }

    /** The end of a pass: those that are ready again go back. */
    method MergePass(later: List<Co>)
      requires Valid() && later.Valid() && later.Repr !! rq.Repr && this !in later.Repr
      modifies rq.Repr, later.Repr
      ensures Valid() && later.Valid() && fresh(rq.Repr - old(rq.Repr)) && later.Repr == old(later.Repr)
      ensures later.items == [] && rq.items == Merge(old(rq.items), old(later.items))
    {
      while !later.IsEmpty()
        invariant Valid() && later.Valid() && later.Repr !! rq.Repr && this !in later.Repr
        invariant fresh(rq.Repr - old(rq.Repr)) && later.Repr == old(later.Repr)
        invariant Merge(rq.items, later.items) == Merge(old(rq.items), old(later.items))
        decreases |later.items|
      {
        ghost var left := later.items;
        var co := later.TakeFirst();
        MergeNext(rq.items, left, co, later.items);
        var found := Exist(co);
        if !found {
          rq.Append(co);
        }
      }
    }
  }

  lemma MergeNext(q: seq<Co>, left: seq<Co>, co: Co, rest: seq<Co>)
    requires left == [co] + rest
    ensures Merge(q, left) == Merge(Enqueue(q, co), rest)
  {
    assert left[1..] == rest;
  }
}

/** Joiners on any threads and the scheduling pass on the event loop share the ready
    queue, under a lock, and wake the loop by the asynchronous handler `rt`. */
module Wakeups {
  import opened Collections
  import opened ReadyQueue
  import A = Async

  /** Where the callback of the runtime is: outside, popping, running a coroutine,
      about to merge, or sending after the merge. */
  datatype Pass = Outside | Popping(later: seq<Co>) | Running(co: Co, later: seq<Co>) | Merging(later: seq<Co>) | Sending

  datatype State = State(
    core: A.State,
    rt: nat,                 // the runtime's handler
    me: nat,                 // the sender slot of the event loop's own thread
    rq: seq<Co>,
    lock: Option<nat>,       // the sender that holds the queue's lock
    pass: Pass,
    entered: seq<Co>,        // all that ever entered the queue
    taken: seq<Co>)          // all that ever left it

  /** A step of the protocol alone; a join; the callback's steps. */
  datatype Action = Core(c: A.Action) | Join(t: nat, co: Co) | Pop | Resumed(ready: bool) | MergeBack

  ghost predicate Init(s: State) {
    && A.Init(s.core) && s.rt < |s.core.status| && s.core.bound[s.rt] && s.me < |s.core.senders|
    && s.rq == s.entered == s.taken == [] && s.lock == None && s.pass == Outside
  }

  predicate Enabled(s: State, a: Action) {
    match a
    case Core(c) =>
      && A.Enabled(s.core, c)
      // the callback returns only after its last send has
      && (c == A.Consume && s.core.consumer == A.Calling(s.rt) ==>
            s.pass == Sending && s.lock != Some(s.me))
    case Join(t, _) => s.lock == None && A.Enabled(s.core, A.Begin(t, s.rt))
    case Pop => s.pass.Popping? && s.lock == None
    case Resumed(_) => s.pass.Running?
    case MergeBack => s.pass.Merging? && s.lock == None && A.Enabled(s.core, A.Begin(s.me, s.rt))
  }

  function CoreStep(s: State, c: A.Action): State
    requires A.Shape(s.core) && Enabled(s, Core(c))
  {
    var core := A.Step(s.core, c);
    var lock := if c.Send? && s.lock == Some(c.t) && core.senders[c.t].stage.Idle? then None else s.lock;
    var pass :=
      if c == A.Consume && s.core.consumer == A.Calling(s.rt) then Outside
      else if c == A.Consume && core.consumer == A.Calling(s.rt) then Popping([])
      else s.pass;
    s.(core := core, lock := lock, pass := pass)
  }

  function Step(s: State, a: Action): State
    requires A.Shape(s.core) && Enabled(s, a)
  {
    match a
    case Core(c) => CoreStep(s, c)
    case Join(t, co) =>
      if co in s.rq then s
      else s.(rq := s.rq + [co], entered := s.entered + [co], lock := Some(t), core := A.Step(s.core, A.Begin(t, s.rt)))
    case Pop =>
      if s.rq == [] then s.(pass := Merging(s.pass.later))
      else s.(rq := s.rq[1..], taken := s.taken + [s.rq[0]], pass := Running(s.rq[0], s.pass.later))
    case Resumed(ready) => s.(pass := Popping(if ready then s.pass.later + [s.pass.co] else s.pass.later))
    case MergeBack =>
      MergeExtends(s.rq, s.pass.later);
      var rq := Merge(s.rq, s.pass.later);
      s.(rq := rq, entered := s.entered + rq[|s.rq|..], pass := Sending, lock := Some(s.me), core := A.Step(s.core, A.Begin(s.me, s.rt)))
  }

  ghost predicate Reaches(s: State, run: seq<Action>, s': State)
    decreases |run|
  {
    if run == [] then s == s'
    else A.Shape(s.core) && Enabled(s, run[0]) && Reaches(Step(s, run[0]), run[1..], s')
  }

  /** Sender `t` holds the lock, and has not yet found out whether the handler is
      claimed. */
  ghost predicate AboutToSend(s: State, t: nat) {
    && s.lock == Some(t) && t < |s.core.senders| && s.core.senders[t].h == s.rt
    && (s.core.senders[t].stage.Reads? || s.core.senders[t].stage.Tries?)
  }

  /** The handler is claimed or done, its callback runs, or a joiner is between
      inserting and sending. */
  ghost predicate InSight(s: State)
    requires s.rt < |s.core.status|
  {
    s.core.status[s.rt] != A.NoPadding || !s.pass.Outside? || exists t :: AboutToSend(s, t)
  }

  ghost predicate Inv(s: State) {
    && A.Inv(s.core) && s.rt < |s.core.status| && s.core.bound[s.rt] && s.me < |s.core.senders|
    && (s.pass.Outside? <==> s.core.consumer != A.Calling(s.rt))
    && (s.lock.Some? ==> s.lock.value < |s.core.senders| && !s.core.senders[s.lock.value].stage.Idle? && s.core.senders[s.lock.value].h == s.rt)
    && (s.rq != [] ==> InSight(s))
    && (s.pass.Sending? ==> s.core.status[s.rt] != A.NoPadding || AboutToSend(s, s.me))
    && Distinct(s.rq) && s.entered == s.taken + s.rq
  }

  lemma InitInv(s: State)
    requires Init(s)
    ensures Inv(s)
  {
    A.InitInv(s.core);
  }

  /** How a step of the protocol treats one handler. */
  lemma CoreEffect(s: A.State, c: A.Action, rt: nat)
    requires A.Inv(s) && A.Enabled(s, c) && rt < |s.status|
    ensures var s' := A.Step(s, c);
      && |s'.status| == |s.status| && |s'.senders| == |s.senders| && s'.bound == s.bound
      && (s.status[rt] != A.NoPadding && s'.status[rt] == A.NoPadding ==>
            c == A.Consume && (s.bound[rt] ==> s'.consumer == A.Calling(rt)))
      && (c != A.Consume ==> s'.consumer == s.consumer)
      && (s.consumer == A.Calling(rt) && c == A.Consume ==> s'.consumer != A.Calling(rt) && s'.status == s.status)
      && (forall t :: 0 <= t < |s.senders| && !(c.Send? && c.t == t) && !s.senders[t].stage.Idle? ==> s'.senders[t] == s.senders[t])
  {
  }

  lemma SendEffect(s: A.State, t: nat)
    requires A.Inv(s) && A.Enabled(s, A.Send(t))
    ensures var s', p := A.Step(s, A.Send(t)), s.senders[t];
      && s'.senders[t].h == p.h
      && (p.stage.Reads? || p.stage.Tries? ==>
            s'.senders[t].stage.Tries? || s'.status[p.h] != A.NoPadding)
  {
  }

  lemma {:induction false} CoreInv(s: State, c: A.Action)
    requires Inv(s) && Enabled(s, Core(c))
    ensures Inv(CoreStep(s, c))
  {
    var s' := CoreStep(s, c);
    A.StepInv(s.core, c);
    CoreEffect(s.core, c, s.rt);
    if c.Send? { SendEffect(s.core, c.t); }
    if s.rq != [] && s'.core.status[s.rt] == A.NoPadding && s'.pass.Outside? {
      if t :| AboutToSend(s, t) {
        assert AboutToSend(s', t);
      }
    }
  }

  lemma {:induction false} StepInv(s: State, a: Action)
    requires Inv(s) && Enabled(s, a)
    ensures Inv(Step(s, a))
  {
    match a {
      case Core(c) => CoreInv(s, c);
      case Join(t, co) => JoinInv(s, t, co);
      case Pop =>
      case Resumed(_) =>
      case MergeBack => MergeInv(s);
    }
  }

  lemma {:induction false} JoinInv(s: State, t: nat, co: Co)
    requires Inv(s) && Enabled(s, Join(t, co))
    ensures Inv(Step(s, Join(t, co)))
  {
    if co !in s.rq {
      A.StepInv(s.core, A.Begin(t, s.rt));
      assert AboutToSend(Step(s, Join(t, co)), t);
    }
  }

  lemma {:induction false} MergeInv(s: State)
    requires Inv(s) && Enabled(s, MergeBack)
    ensures Inv(Step(s, MergeBack))
  {
    A.StepInv(s.core, A.Begin(s.me, s.rt));
    MergeIs(s.rq, s.pass.later);
    assert AboutToSend(Step(s, MergeBack), s.me);
  }

  lemma {:induction false} RunInv(s: State, run: seq<Action>, s': State)
    requires Inv(s) && Reaches(s, run, s')
    ensures Inv(s')
    decreases |run|
  {
    if run != [] {
      StepInv(s, run[0]);
      RunInv(Step(s, run[0]), run[1..], s');
    }
  }

  /** While a coroutine is queued the handler is claimed or done, its callback is in
      progress, or a joiner is about to send; the event loop is not at rest. */
  lemma NeverStranded(s: State, run: seq<Action>, s': State)
    requires Init(s) && Reaches(s, run, s') && s'.rq != []
    ensures s'.rt < |s'.core.status| && InSight(s') && !A.Quiescent(s'.core)
  {
    InitInv(s);
    RunInv(s, run, s');
    assert A.HandlerOk(s'.core, s'.rt);
  }

  /** The queue holds nothing twice and hands out in the order of entry. */
  lemma FirstInFirstOut(s: State, run: seq<Action>, s': State)
    requires Init(s) && Reaches(s, run, s')
    ensures Distinct(s'.rq) && s'.entered == s'.taken + s'.rq
  {
    InitInv(s);
    RunInv(s, run, s');
  }

  /** Since a pass ends with a send, the handler is never idle again after it. */
  lemma {:induction false} PassEndsClaimed(s: State, a: Action)
    requires Inv(s) && Enabled(s, a) && !s.pass.Outside? && Step(s, a).pass.Outside?
    ensures Step(s, a).core.status[s.rt] != A.NoPadding && !A.Quiescent(Step(s, a).core)
  {
    StepInv(s, a);
    var s' := Step(s, a);
    assert a == Core(A.Consume);
    CoreEffect(s.core, A.Consume, s.rt);
  }

  // ---------- what comes back ready is queued again ----------

  /** Those that the pass keeps for its end. */
  function Kept(p: Pass): seq<Co> {
    match p
    case Popping(later) => later
    case Running(_, later) => later
    case Merging(later) => later
    case _ => []
  }

  /** The coroutines that came back ready in the course of a run, in order. */
  ghost function CameBack(s: State, run: seq<Action>, s': State): seq<Co>
    requires Reaches(s, run, s')
    decreases |run|
  {
    if run == [] then []
    else (if s.pass.Running? && run[0] == Resumed(true) then [s.pass.co] else []) + CameBack(Step(s, run[0]), run[1..], s')
  }

  /** Until it merges, a pass keeps exactly those that came back ready, in order. */
  lemma {:induction false} KeptAre(s: State, run: seq<Action>, s': State)
    requires Inv(s) && Reaches(s, run, s') && MergeBack !in run
    ensures Kept(s'.pass) == Kept(s.pass) + CameBack(s, run, s')
    decreases |run|
  {
    if run == [] {
      assert Kept(s.pass) + [] == Kept(s.pass);
    } else {
      StepInv(s, run[0]);
      KeptOn(s, run[0]);
      KeptAre(Step(s, run[0]), run[1..], s');
      Regroup(Kept(s.pass), if s.pass.Running? && run[0] == Resumed(true) then [s.pass.co] else [], CameBack(Step(s, run[0]), run[1..], s'));
    }
  }

  lemma Regroup(a: seq<Co>, b: seq<Co>, c: seq<Co>)
    ensures a + b + c == a + (b + c)
  {
  }

  lemma {:induction false} KeptOn(s: State, a: Action)
    requires Inv(s) && Enabled(s, a) && a != MergeBack
    ensures Kept(Step(s, a).pass) == Kept(s.pass) + if s.pass.Running? && a == Resumed(true) then [s.pass.co] else []
  {
  }

  /** From the beginning of a pass to its merge: what comes back ready is queued in the
      end, and nothing else is added. */
  lemma ReadyAgainQueued(s: State, run: seq<Action>, s': State)
    requires Inv(s) && s.pass.Outside? && Reaches(s, run, s') && MergeBack !in run && Enabled(s', MergeBack)
    ensures Inv(s')
    ensures var t := Step(s', MergeBack);
      && t.pass == Sending && s'.rq <= t.rq && Distinct(t.rq)
      && forall co :: co in t.rq <==> co in s'.rq || co in CameBack(s, run, s')
  {
    RunInv(s, run, s');
    KeptAre(s, run, s');
    MergeIs(s'.rq, s'.pass.later);
  }

  /** They keep their order, if nobody joined them meanwhile. */
  lemma ReadyAgainInOrder(s: State, run: seq<Action>, s': State)
    requires Inv(s) && s.pass.Outside? && Reaches(s, run, s') && MergeBack !in run && Enabled(s', MergeBack)
    requires Distinct(s'.rq + CameBack(s, run, s'))
    ensures Inv(s') && Step(s', MergeBack).rq == s'.rq + CameBack(s, run, s')
  {
    RunInv(s, run, s');
    KeptAre(s, run, s');
    var back := CameBack(s, run, s');
    assert s'.pass.later == back by { assert [] + back == back; }
    MergeNew(s'.rq, back);
  }

  /** Coroutine `co` is taken out and run in the course of the run. */
  ghost predicate RunIn(s: State, run: seq<Action>, co: Co)
    decreases |run|
  {
    && run != [] && A.Shape(s.core) && Enabled(s, run[0])
    && ((run[0] == Pop && Step(s, run[0]).pass.Running? && Step(s, run[0]).pass.co == co) || RunIn(Step(s, run[0]), run[1..], co))
  }

  lemma {:induction false} QueuedTillRun(s: State, run: seq<Action>, s': State, co: Co)
    requires Inv(s) && Reaches(s, run, s') && co in s.rq
    ensures co in s'.rq || RunIn(s, run, co)
    decreases |run|
  {
    if run != [] {
      var t := Step(s, run[0]);
      StepInv(s, run[0]);
      QueuedOn(s, run[0], co);
      if co in t.rq { QueuedTillRun(t, run[1..], s', co); }
    }
  }

  lemma {:induction false} QueuedOn(s: State, a: Action, co: Co)
    requires Inv(s) && Enabled(s, a) && co in s.rq
    ensures co in Step(s, a).rq || (a == Pop && Step(s, a).pass.Running? && Step(s, a).pass.co == co)
  {
    if a == MergeBack { MergeIs(s.rq, s.pass.later); }
  }

  /** A coroutine that is joined is in the queue until it is run. */
  lemma JoinedTillRun(s: State, t: nat, co: Co, run: seq<Action>, s': State)
    requires Inv(s) && Enabled(s, Join(t, co)) && Reaches(Step(s, Join(t, co)), run, s')
    ensures co in s'.rq || RunIn(Step(s, Join(t, co)), run, co)
  {
    StepInv(s, Join(t, co));
    QueuedTillRun(Step(s, Join(t, co)), run, s', co);
  }

  // ---------- the first in the queue gets its turn ----------

  function Phase(p: Pass): nat {
    match p
    case Merging(_) => 3
    case Sending => 2
    case Outside => 1
    case _ => 0
  }

  /** A step that neither joins nor begins a send, nor finds a handler being claimed
      and tries again. */
  predicate Moves(s: State, a: Action) {
    !Begins(a) && (a.Core? ==> !A.Spins(s.core, a.c))
  }

  predicate Begins(a: Action) {
    a.Join? || (a.Core? && a.c.Begin?)
  }

  /** The step takes the first coroutine out of the queue to run it. */
  ghost predicate Takes(s: State, a: Action)
    requires A.Shape(s.core) && Enabled(s, a) && s.rq != []
  {
    Step(s, a).taken == s.taken + [s.rq[0]] && Step(s, a).pass.Running? && Step(s, a).pass.co == s.rq[0]
  }

  /** It is still the first, and the system is closer to its turn. */
  ghost predicate Closer(s: State, s': State) {
    && s.rq != [] && s'.rq != [] && s'.rq[0] == s.rq[0] && s'.taken == s.taken
    && (Phase(s'.pass) < Phase(s.pass) || (Phase(s'.pass) == Phase(s.pass) &&
       (A.AllLeft(s'.core.senders) < A.AllLeft(s.core.senders) || (A.AllLeft(s'.core.senders) == A.AllLeft(s.core.senders) &&
       ((s.core.signal && !s'.core.signal) || (s.core.signal == s'.core.signal &&
       (A.ScanLeft(s'.core) < A.ScanLeft(s.core) || (A.ScanLeft(s'.core) == A.ScanLeft(s.core) &&
       s.pass.Running? && !s'.pass.Running?))))))))
  }

  lemma {:induction false} CoreCloser(s: State, c: A.Action)
    requires Inv(s) && Enabled(s, Core(c)) && s.rq != [] && Moves(s, Core(c))
    ensures Closer(s, CoreStep(s, c))
  {
    A.StepsRunOut(s.core, c);
    CoreEffect(s.core, c, s.rt);
  }

  /** Every such step takes the first in the queue, or brings its turn closer. */
  lemma {:induction false} TurnComesCloser(s: State, a: Action)
    requires Inv(s) && Enabled(s, a) && s.rq != [] && Moves(s, a)
    ensures Takes(s, a) || Closer(s, Step(s, a))
  {
    match a {
      case Core(c) => CoreCloser(s, c);
      case Pop =>
      case Resumed(_) =>
      case MergeBack => MergeExtends(s.rq, s.pass.later);
    }
  }

  /** And as long as a coroutine is queued such a step is possible. */
  lemma {:induction false} CanMove(s: State) returns (a: Action)
    requires Inv(s) && s.rq != []
    ensures Enabled(s, a) && Moves(s, a)
  {
    if s.pass.Running? {
      a := Resumed(true);
    } else if s.pass.Outside? {
      AwakeWhileQueued(s);
      var c := A.NeverStuck(s.core);
      a := Core(c);
    } else if s.lock.Some? {
      assert A.SenderOk(s.core, s.core.senders[s.lock.value]);
      a := Core(A.Send(s.lock.value));
    } else if s.pass.Popping? {
      a := Pop;
    } else if s.pass.Sending? {
      a := Core(A.Consume);
    } else if s.core.senders[s.me].stage.Idle? {
      a := MergeBack;
    } else {
      assert A.SenderOk(s.core, s.core.senders[s.me]);
      a := Core(A.Send(s.me));
    }
  }

  lemma AwakeWhileQueued(s: State)
    requires Inv(s) && s.rq != []
    ensures !A.Quiescent(s.core)
  {
    assert A.HandlerOk(s.core, s.rt);
  }

  /** So from every state of every run the steps under way alone, in any order, take
      the first in the queue out to run it. */
  lemma {:induction false} FirstGetsItsTurn(s: State) returns (run: seq<Action>, s': State, a: Action)
    requires Inv(s) && s.rq != []
    ensures Reaches(s, run, s') && Inv(s') && forall i :: 0 <= i < |run| ==> !Begins(run[i])
    ensures s'.rq != [] && s'.rq[0] == s.rq[0] && s'.taken == s.taken
    ensures Enabled(s', a) && Moves(s', a) && Takes(s', a)
    decreases Phase(s.pass), A.AllLeft(s.core.senders), s.core.signal, A.ScanLeft(s.core), s.pass.Running?
  {
    a := CanMove(s);
    TurnComesCloser(s, a);
    if Takes(s, a) {
      return [], s, a;
    }
    var first := a;
    StepInv(s, first);
    var rest;
    rest, s', a := FirstGetsItsTurn(Step(s, first));
    run := [first] + rest;
    assert run[1..] == rest;
  }
}
