/** Timers on the heap: src/lc_timer.c with the kqueue event loop of
    src/platform/darwin/lc_eloop.c. */
module Timers {
  import opened Collections
  import opened HeapShape
  import opened Heaps
  import opened TimeArithmetic
  import opened TimerPass

  /** A new deadline for the node at position `k` leaves the order alone exactly
      when it is neither before the parent's nor after a child's. */
  ghost predicate Fits(due: Deadlines, at: seq<HeapNode>, k: int, t: TimeVal)
    requires 1 <= k <= |at|
  {
    && (k >= 2 ==> !Earlier(t, DueAt(due, at[k / 2 - 1])))
    && (2 * k <= |at| ==> !Earlier(DueAt(due, at[2 * k - 1]), t))
    && (2 * k + 1 <= |at| ==> !Earlier(DueAt(due, at[2 * k]), t))
  }

  lemma {:induction false} RedatedIff(due: Deadlines, at: seq<HeapNode>, k: int, t: TimeVal)
    requires Distinct(at) && Ordered(due, at) && 1 <= k <= |at|
    ensures Ordered(due[at[k - 1] := t], at) <==> Fits(due, at, k, t)
  {
    var due' := due[at[k - 1] := t];
    if Fits(due, at, k, t) {
      forall j | 2 <= j <= |at| ensures InOrderAt(due', at, j) {
        assert InOrderAt(due, at, j);
      }
    }
    if Ordered(due', at) {
      if k >= 2 { assert InOrderAt(due', at, k); }
      if 2 * k <= |at| { assert InOrderAt(due', at, 2 * k); }
      if 2 * k + 1 <= |at| { assert InOrderAt(due', at, 2 * k + 1); }
    }
  }

  class TimerLoop {
    const heap: Heap
    /** The timers initialised for this loop. */
    ghost var timers: set<HeapNode>

    /** A timer's flag says whether it is in the heap; times are normalised. */
    ghost predicate Flagged()
      reads this, heap, timers
    {
      && heap.links.Keys <= timers
      && forall n :: n in timers ==>
        && (n.active <==> n in heap.links) && Normal(n.timeout) && Normal(n.interval) && n.interval.sec >= 0
    }

    ghost predicate Valid()
      reads this, heap, heap.links.Keys, timers
    {
      heap.Valid() && Flagged()
    }

    constructor ()
      ensures Valid() && timers == {} && fresh(heap)
    {
      timers := {};
      heap := new Heap();
      new;
      assert heap.links.Keys == Members([]) == {};
    }

    method TimerInit() returns (timer: HeapNode)
      requires Valid()
      modifies `timers
      ensures Valid() && fresh(timer) && timers == old(timers) + {timer} && !timer.active
    {
      timer := new HeapNode();
      timers := timers + {timer};
    }

    /** Does nothing when the timer is active already. */
    method TimerAdd(timer: HeapNode)
      requires Valid() && timer in timers && (!timer.active ==> heap.cnt + 1 < 0x4000_0000)
      modifies heap, timers`parent, timers`left, timers`right, timer`active
      ensures Valid() && timer.active && heap.links.Keys == old(heap.links).Keys + {timer}
      ensures heap.cnt == old(heap.cnt) + if old(timer.active) then 0 else 1
    {
      if timer.active {
        return;
      }
      AddInactive(timer);
    }

    method AddInactive(timer: HeapNode)
      requires Valid() && timer in timers && !timer.active && heap.cnt + 1 < 0x4000_0000
      modifies heap, timers`parent, timers`left, timers`right, timer`active
      ensures Valid() && timer.active && heap.links.Keys == old(heap.links).Keys + {timer} && heap.cnt == old(heap.cnt) + 1
    {
      Clear(timer);
      heap.Insert(timer);
      timer.active := true;
    }

    /** `liteco_heapnode_init`. */
    method Clear(timer: HeapNode)
      requires Valid() && timer !in heap.links
      modifies timer`parent, timer`left, timer`right
      ensures Valid() && timer.parent == timer.left == timer.right == null
    {
      timer.parent, timer.left, timer.right := null, null, null;
    }

    /** Does nothing when the timer is not active. */
    method TimerRemove(timer: HeapNode)
      requires Valid() && timer in timers && heap.cnt < 0x4000_0000
      modifies heap, timers`parent, timers`left, timers`right, timer`active
      ensures Valid() && !timer.active && heap.links.Keys == old(heap.links).Keys - {timer}
      ensures heap.cnt <= old(heap.cnt) && (old(timer.active) ==> heap.cnt + 1 == old(heap.cnt))
    {
      if !timer.active {
        return;
      }
      heap.Remove(timer);
      timer.active := false;
    }

    method TimerStop(timer: HeapNode)
      requires Valid() && timer in timers && heap.cnt < 0x4000_0000
      modifies heap, timers`parent, timers`left, timers`right, timer`active, timer`stop
      ensures Valid() && !timer.active && timer.stop && heap.links.Keys == old(heap.links).Keys - {timer}
      ensures heap.cnt <= old(heap.cnt)
      ensures forall n :: n in timers ==> Look(n) == if n == timer then old(Look(n)).(active := false, stop := true) else old(Look(n))
    {
      timer.stop := true;
      TimerRemove(timer);
    }

    /** Sets a timer's deadline relative to the present.  On an inactive timer the
        heap gains it; the deadline of an active one changes where it stands, and
        the heap stays ordered exactly when the new deadline fits there. */
    method TimerStart(timer: HeapNode, current: TimeVal, timeout: nat, interval: nat)
      requires Valid() && timer in timers && Normal(current) && (!timer.active ==> heap.cnt + 1 < 0x4000_0000)
      modifies heap, timers`parent, timers`left, timers`right, timer
      ensures Flagged() && heap.Shaped() && heap.Dated() && timer.active && !timer.stop
      ensures heap.links.Keys == old(heap.links).Keys + {timer}
      ensures Micros(timer.timeout) == Micros(current) + if timeout == 0 then interval else timeout
      ensures Micros(timer.interval) == interval
      ensures timer.timeout == Deadline(current, timeout, interval) && timer.interval == FromMicros(interval)
      ensures forall n :: n in timers && n != timer ==> Look(n) == old(Look(n))
      ensures !old(timer.active) ==> Valid()
      ensures old(timer.active) ==> heap.at == old(heap.at)
      ensures forall k :: 1 <= k <= |old(heap.at)| && old(heap.at[k - 1]) == timer ==>
                (Valid() <==> Fits(old(heap.due), old(heap.at), k, timer.timeout))
    {
      SetTimes(timer, current, timeout, interval);
      if timer.active {
        Redate(timer);
      } else {
        assert heap.Valid();
        TimerAdd(timer);
      }
    }

    method SetTimes(timer: HeapNode, current: TimeVal, timeout: nat, interval: nat)
      requires Normal(current)
      modifies timer`stop, timer`interval, timer`timeout
      ensures timer.timeout == Deadline(current, timeout, interval) && timer.interval == FromMicros(interval) && !timer.stop
      ensures Normal(timer.timeout) && Normal(timer.interval) && timer.interval.sec >= 0
      ensures Micros(timer.timeout) == Micros(current) + if timeout == 0 then interval else timeout
      ensures Micros(timer.interval) == interval
    {
      timer.stop := false;
      timer.interval := FromMicros(interval);
      timer.timeout := if timeout == 0 then Plus(current, timer.interval) else Plus(current, FromMicros(timeout));
      MicrosInverse(interval);
      MicrosInverse(timeout);
      PlusIsAddition(current, if timeout == 0 then timer.interval else FromMicros(timeout));
    }

    ghost method Redate(timer: HeapNode)
      requires heap.Shaped() && Flagged() && timer in heap.links && Ordered(heap.due, heap.at)
      requires forall n :: n in heap.links && n != timer ==> n in heap.due && heap.due[n] == n.timeout
      modifies heap`due
      ensures heap.Shaped() && heap.Dated() && Flagged()
      ensures forall k :: 1 <= k <= |heap.at| && heap.at[k - 1] == timer ==>
                (Valid() <==> Fits(old(heap.due), heap.at, k, timer.timeout))
    {
      heap.due := heap.due[timer := timer.timeout];
      forall k | 1 <= k <= |heap.at| && heap.at[k - 1] == timer
        ensures Valid() <==> Fits(old(heap.due), heap.at, k, timer.timeout)
      {
        RedatedIff(old(heap.due), heap.at, k, timer.timeout);
      }
    }

    /** With fewer than `2^30` timers there is room for each of them. */
    lemma Room()
      requires Valid()
      ensures heap.cnt == |heap.links.Keys| <= |timers|
      ensures forall n :: n in timers && n !in heap.links ==> heap.cnt + 1 <= |timers|
    {
      CountMembers(heap.at);
      SubsetSize(heap.links.Keys, timers);
      forall n | n in timers && n !in heap.links ensures heap.cnt + 1 <= |timers| {
        SubsetSize(heap.links.Keys + {n}, timers);
      }
    }

    /** One thing that a callback does. */
    method Perform(act: Act)
      requires Valid() && |timers| < 0x4000_0000 && Proper(act, timers) && (act.Start? ==> !act.timer.active)
      modifies heap, timers
      ensures Valid() && forall n :: n in timers ==> Look(n) == ActOn(old(Look(n)), n, act)
    {
      Room();
      match act {
        case Stop(timer) => TimerStop(timer);
        case Start(timer, current, timeout, interval) => TimerStart(timer, current, timeout, interval);
      }
    }

    method Callback(script: seq<Act>, ghost self: HeapNode)
      requires Valid() && |timers| < 0x4000_0000 && forall i :: 0 <= i < |script| ==> Proper(script[i], timers)
      requires Heeds(Shown(), script, self)
      modifies heap, timers
      ensures Valid() && forall n :: n in timers ==> Look(n) == ScriptOn(old(Look(n)), n, script)
    {
      var i := 0;
      while i < |script|
        invariant 0 <= i <= |script| && Valid() && timers == old(timers)
        invariant forall n :: n in timers ==> Look(n) == ScriptOn(old(Look(n)), n, script[..i])
      {
        forall x, n ensures ScriptOn(x, n, script[..i + 1]) == ActOn(ScriptOn(x, n, script[..i]), n, script[i]) {
          ScriptStep(x, n, script, i);
        }
        Perform(script[i]);
        i := i + 1;
      }
      assert script[..i] == script;
    }

    /** A periodic timer that is not stopped goes back, one interval after the
        reading of the clock. */
    method Rearm(timer: HeapNode, reading: TimeVal)
      requires Valid() && timer in timers && Normal(reading)
      requires if timer.active then !Periodic(timer.interval) else heap.cnt + 1 < 0x4000_0000
      modifies heap, timers`parent, timers`left, timers`right, timer`active, timer`timeout
      ensures Valid() && Look(timer) == RearmOn(old(Look(timer)), reading)
    {
      if Periodic(timer.interval) && !timer.stop {
        timer.timeout := Plus(reading, timer.interval);
        PlusIsAddition(reading, timer.interval);
        TimerAdd(timer);
      }
    }

    method TakeRoot(timer: HeapNode)
      requires Valid() && heap.root == timer && |timers| < 0x4000_0000
      modifies heap, timers`parent, timers`left, timers`right, timer`active
      ensures Valid() && timer in timers && Shown() == Taken(old(Shown()), timer)
    {
      Room();
      heap.RootFirst();
      TimerRemove(timer);
    }

    /** One turn of the dispatch loop: the root fires.  Unless its callback starts it,
        it is back exactly if its interval is positive and it is not stopped. */
    method Fire(timer: HeapNode, reading: TimeVal, script: seq<Act>)
      requires Valid() && heap.root == timer && |timers| < 0x4000_0000 && Normal(reading)
      requires forall i :: 0 <= i < |script| ==> Proper(script[i], timers)
      requires Heeds(Taken(Shown(), timer), script, timer)
      modifies heap, timers
      ensures Valid() && forall n :: n in timers ==> Look(n) == FireOn(old(Look(n)), n, timer, script, reading)
      ensures timer in timers && (!Starts(script, timer) ==> BackAgain(old(Look(timer)), Look(timer), reading, Stop(timer) in script))
    {
      heap.RootFirst();
      FiredSelf(Look(timer), timer, script, reading);
      FireRoot(timer, reading, script);
    }

    method FireRoot(timer: HeapNode, reading: TimeVal, script: seq<Act>)
      requires Valid() && heap.root == timer && |timers| < 0x4000_0000 && Normal(reading)
      requires forall i :: 0 <= i < |script| ==> Proper(script[i], timers)
      requires Heeds(Taken(Shown(), timer), script, timer)
      modifies heap, timers
      ensures Valid() && forall n :: n in timers ==> Look(n) == FireOn(old(Look(n)), n, timer, script, reading)
    {
      TakeRoot(timer);
      assert Look(timer) == Shown()[timer];
      SelfNotPeriodic(Look(timer), timer, script);
      Callback(script, timer);
      Room();
      Rearm(timer, reading);
    }

    /** Where a pass stands that has fired the timers `fired`, having begun with the
        timers as `was` shows them. */
    ghost predicate Standing(pass: Pass, was: Shots, fired: seq<HeapNode>)
      reads this, heap, heap.links.Keys, timers
    {
      && Valid() && |timers| < 0x4000_0000 && was.Keys == timers && Ran(pass, was, fired) && Heedful(pass, was)
      && forall n :: n in timers ==> Look(n) == After(pass, was[n], n, fired)
    }

    /** What the event loop asks of the callbacks: `2^30` timers at most, times as the
        clock shows them, and only timers of this loop. */
    ghost predicate Fit(pass: Pass)
      reads this
    {
      && |timers| < 0x4000_0000 && Normal(pass.now) && Clocked(pass)
      && forall k: nat, i :: 0 <= i < |pass.acts(k)| ==> Proper(pass.acts(k)[i], timers)
    }

    method Turn(pass: Pass, ghost was: Shots, ghost fired: seq<HeapNode>, k: nat) returns (timer: HeapNode)
      requires Standing(pass, was, fired) && k == |fired| && Fit(pass)
      requires heap.root != null && Earlier(heap.root.timeout, pass.now)
      modifies heap, timers
      ensures Standing(pass, was, fired + [timer]) && timers == old(timers)
      ensures timer in was && Due(pass, After(pass, was[timer], timer, fired))
    {
      timer := heap.root;
      heap.RootFirst();
      assert timer in heap.links && timer in timers;
      forall n | n in was && After(pass, was[n], n, fired).active
        ensures !Earlier(After(pass, was[n], n, fired).timeout, After(pass, was[timer], timer, fired).timeout)
      {
        assert n in heap.links;
      }
      RanOn(pass, was, fired, timer);
      NextHeeds(pass, was, fired, timer);
      assert Shown() == ShotsAfter(pass, was, fired);
      Fire(timer, pass.clock(k), pass.acts(k));
      forall n | n in timers ensures Look(n) == After(pass, was[n], n, fired + [timer]) {
        AfterStep(pass, was[n], n, fired, timer);
      }
    }

    /** The dispatch pass, with callbacks that start no active timer. */
    method TimerActive(pass: Pass) returns (fired: seq<HeapNode>)
      requires Valid() && Fit(pass) && Heedful(pass, Shown())
      modifies heap, timers
      ensures Valid() && timers == old(timers)
      ensures var was := old(Shown());
        && was.Keys == timers && AllSane(was) && Ran(pass, was, fired)
        && (forall n :: n in timers ==> Look(n) == After(pass, was[n], n, fired) && !Due(pass, Look(n)))
      ensures forall n :: n in timers && n.active ==> Micros(n.timeout) >= Micros(pass.now)
    {
      fired := [];
      ghost var was := Shown();
      while heap.root != null && Earlier(heap.root.timeout, pass.now)
        invariant Standing(pass, was, fired) && timers == old(timers)
        decreases AllDue(pass, was, fired)
      {
        ghost var before := fired;
        var timer := Turn(pass, was, fired, |fired|);
        FewerDue(pass, was, before, timer);
        fired := fired + [timer];
      }
      heap.RootFirst();
      forall n | n in timers && n.active ensures Micros(n.timeout) >= Micros(pass.now) { DueIff(pass, Look(n)); }
    }

    ghost function Shown(): Shots
      reads this, timers
    {
      map n | n in timers :: Look(n)
    }

    /** How long to wait for the next event: nothing when no timer is pending. */
    method TimerWait(now: TimeVal) returns (sec: int, nsec: int)
      requires Valid() && Normal(now)
      ensures heap.root == null ==> sec == nsec == 0
      ensures heap.root != null ==> sec * 1_000_000_000 + nsec == (Micros(heap.root.timeout) - Micros(now)) * 1000
      ensures 0 <= nsec < 1_000_000_000
      ensures heap.root != null ==> (sec >= 0 <==> !Earlier(heap.root.timeout, now))
    {
      if heap.root == null {
        return 0, 0;
      }
      heap.RootFirst();
      var timeout := heap.root.timeout;
      if timeout.usec < now.usec {
        timeout := TimeVal(timeout.sec - 1, timeout.usec + MICROS);
      }
      sec, nsec := timeout.sec - now.sec, (timeout.usec - now.usec) * 1000;
    }

    /** One round of the event loop's timers: dispatch, then the waiting time. */
    method RunTimers(pass: Pass) returns (fired: seq<HeapNode>, sec: int, nsec: int)
      requires Valid() && Fit(pass) && Heedful(pass, Shown())
      modifies heap, timers
      ensures Valid() && timers == old(timers) && old(Shown()).Keys == timers && Ran(pass, old(Shown()), fired)
      ensures sec >= 0 && 0 <= nsec < 1_000_000_000
      ensures if heap.root == null then sec == nsec == 0
              else sec * 1_000_000_000 + nsec == (Micros(heap.root.timeout) - Micros(pass.now)) * 1000
    {
      fired := TimerActive(pass);
      sec, nsec := TimerWait(pass.now);
      heap.RootFirst();
    }
  }

  lemma CountMembers(at: seq<HeapNode>)
    requires Distinct(at)
    ensures |Members(at)| == |at|
  {
    if at != [] {
      var cut := at[..|at| - 1];
      CountMembers(cut);
      assert at == cut + [at[|at| - 1]];
      assert Members(at) == Members(cut) + {at[|at| - 1]};
    }
  }

  lemma SubsetSize<T>(a: set<T>, b: set<T>)
    requires a <= b
    ensures |a| <= |b|
  {
    assert b == a + (b - a);
  }

  // ---------- an active timer that is started again ----------

  /** Two nodes stand in the order of their deadlines. */
  lemma TwoInOrder(due: Deadlines, at: seq<HeapNode>, a: HeapNode, b: HeapNode)
    requires Distinct(at) && Ordered(due, at) && Members(at) == {a, b} && Earlier(DueAt(due, a), DueAt(due, b))
    ensures at == [a, b]
  {
    CountMembers(at);
    assert a != b;
    assert |at| == 2;
    assert at[0] in Members(at) && at[1] in Members(at);
    assert InOrderAt(due, at, 2);
  }

  lemma SecondsLater(d: nat)
    requires d > 0
    ensures Deadline(TimeVal(0, 0), d * 1_000_000, 0) == TimeVal(d, 0)
  {
  }

  method NewPair() returns (loop: TimerLoop, a: HeapNode, b: HeapNode)
    ensures fresh(loop) && fresh(loop.heap) && fresh(loop.timers) && loop.Valid() && loop.timers == {a, b} && a != b
    ensures !a.active && !b.active && loop.heap.links.Keys == {}
  {
    loop := new TimerLoop();
    a := loop.TimerInit();
    b := loop.TimerInit();
  }

  /** A timer due after ten seconds, and another one. */
  method OneTimer() returns (loop: TimerLoop, a: HeapNode, b: HeapNode)
    ensures fresh(loop) && fresh(loop.heap) && fresh(loop.timers) && loop.Valid() && loop.timers == {a, b} && a != b
    ensures a.active && !b.active && a.timeout == TimeVal(10, 0) && loop.heap.links.Keys == {a}
  {
    loop, a, b := NewPair();
    loop.Room();
    SecondsLater(10);
    loop.TimerStart(a, TimeVal(0, 0), 10_000_000, 0);
  }

  /** Two timers, due after ten and after twenty seconds. */
  method TwoTimers() returns (loop: TimerLoop, a: HeapNode, b: HeapNode)
    ensures fresh(loop) && fresh(loop.heap) && fresh(loop.timers) && loop.Valid()
    ensures a in loop.timers && a.active && loop.heap.at == [a, b] && DueAt(loop.heap.due, b) == TimeVal(20, 0)
  {
    loop, a, b := OneTimer();
    loop.Room();
    SecondsLater(20);
    loop.TimerStart(b, TimeVal(0, 0), 20_000_000, 0);
    TwoInOrder(loop.heap.due, loop.heap.at, a, b);
  }

  /** Starting the first of them again, for thirty seconds, while it is active leaves
      a heap whose root is not the earliest. */
  method RestartDisorders() returns (loop: TimerLoop, a: HeapNode)
    ensures fresh(loop) && a.active && loop.heap.Shaped() && loop.heap.Dated()
    ensures !Ordered(loop.heap.due, loop.heap.at) && !loop.Valid()
  {
    var b;
    loop, a, b := TwoTimers();
    ghost var due, at := loop.heap.due, loop.heap.at;
    SecondsLater(30);
    loop.TimerStart(a, TimeVal(0, 0), 30_000_000, 0);
    assert at[1 - 1] == a && a.timeout == TimeVal(30, 0);
    assert !Fits(due, at, 1, a.timeout);
  }
}
