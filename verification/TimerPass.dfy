/** The time arithmetic of src/platform/darwin/internal.h. */
module TimeArithmetic {
  import opened HeapShape

  const MICROS := 1000 * 1000

  ghost predicate Normal(t: TimeVal) {
    0 <= t.usec < MICROS
  }

  /** A point in time as one number of microseconds. */
  function Micros(t: TimeVal): int {
    t.sec * MICROS + t.usec
  }

  function FromMicros(d: nat): TimeVal {
    TimeVal(d / MICROS, d % MICROS)
  }

  /** Adds field by field, then carries. */
  function Plus(t: TimeVal, d: TimeVal): TimeVal {
    var usec := t.usec + d.usec;
    TimeVal(t.sec + d.sec + usec / MICROS, usec % MICROS)
  }

  lemma {:induction false} PlusIsAddition(t: TimeVal, d: TimeVal)
    ensures Normal(Plus(t, d)) && Micros(Plus(t, d)) == Micros(t) + Micros(d)
  {
  }

  lemma {:induction false} MicrosInverse(d: nat)
    ensures Normal(FromMicros(d)) && Micros(FromMicros(d)) == d
  {
  }

  /** The field-wise comparison is the comparison of microseconds. */
  lemma EarlierIsLess(a: TimeVal, b: TimeVal)
    requires Normal(a) && Normal(b)
    ensures Earlier(a, b) <==> Micros(a) < Micros(b)
    ensures a == b <==> Micros(a) == Micros(b)
  {
  }

  function Periodic(interval: TimeVal): bool {
    interval.sec != 0 || interval.usec != 0
  }

  /** A deadline set at a reading of the clock for one interval later is not due
      at any earlier time. */
  lemma RearmedIsLater(now: TimeVal, reading: TimeVal, interval: TimeVal)
    requires Normal(now) && Normal(reading) && Normal(interval) && interval.sec >= 0
    requires !Earlier(reading, now)
    ensures !Earlier(Plus(reading, interval), now)
    ensures Periodic(interval) ==> Earlier(now, Plus(reading, interval))
  {
    PlusIsAddition(reading, interval);
    EarlierIsLess(reading, now);
    EarlierIsLess(Plus(reading, interval), now);
    EarlierIsLess(now, Plus(reading, interval));
  }
}

/** What a dispatch pass does to each timer, as a value: src/lc_timer.c and the
    dispatch loop of src/platform/darwin/lc_eloop.c. */
module TimerPass {
  import opened HeapShape
  import opened TimeArithmetic

  /** A timer at one moment; active means in the heap. */
  datatype Shot = Shot(active: bool, timeout: TimeVal, interval: TimeVal, stop: bool)

  type Shots = map<HeapNode, Shot>

  /** A call that a callback makes, `Start` with what the clock shows. */
  datatype Act = Stop(timer: HeapNode) | Start(timer: HeapNode, current: TimeVal, timeout: nat, interval: nat)

  /** The time that the loop compares with, what the clock shows after each callback,
      and what each callback does. */
  datatype Pass = Pass(now: TimeVal, clock: nat -> TimeVal, acts: nat -> seq<Act>)

  function Look(n: HeapNode): Shot
    reads n
  {
    Shot(n.active, n.timeout, n.interval, n.stop)
  }

  function Deadline(current: TimeVal, timeout: nat, interval: nat): TimeVal {
    Plus(current, FromMicros(if timeout == 0 then interval else timeout))
  }

  /** What a call does to the fields of `n`.  A start of a timer that is active moves
      its deadline where it stands. */
  function ActOn(x: Shot, n: HeapNode, act: Act): Shot {
    if act.timer != n then x
    else match act
      case Stop(_) => x.(active := false, stop := true)
      case Start(_, current, timeout, interval) => Shot(true, Deadline(current, timeout, interval), FromMicros(interval), false)
  }

  function ScriptOn(x: Shot, n: HeapNode, script: seq<Act>): Shot {
    if script == [] then x
    else ActOn(ScriptOn(x, n, script[..|script| - 1]), n, script[|script| - 1])
  }

  lemma ScriptStep(x: Shot, n: HeapNode, script: seq<Act>, i: nat)
    requires i < |script|
    ensures ScriptOn(x, n, script[..i + 1]) == ActOn(ScriptOn(x, n, script[..i]), n, script[i])
  {
    assert script[..i + 1][..i] == script[..i];
  }

  function RearmOn(x: Shot, reading: TimeVal): Shot {
    if Periodic(x.interval) && !x.stop then x.(active := true, timeout := Plus(reading, x.interval)) else x
  }

  /** A timer goes back exactly if its interval is a positive number of microseconds
      and it is not stopped, that much later than the clock. */
  lemma RearmIff(x: Shot, reading: TimeVal)
    requires Sane(x) && Normal(reading)
    ensures var y := RearmOn(x, reading);
      && (y.active <==> x.active || (Micros(x.interval) > 0 && !x.stop))
      && y.interval == x.interval && y.stop == x.stop
      && (Micros(x.interval) > 0 && !x.stop ==> Normal(y.timeout) && Micros(y.timeout) == Micros(reading) + Micros(x.interval))
      && (Micros(x.interval) == 0 || x.stop ==> y == x)
  {
    PlusIsAddition(reading, x.interval);
  }

  /** `self` leaves the heap, its callback runs, and it may be re-armed. */
  function FireOn(x: Shot, n: HeapNode, self: HeapNode, script: seq<Act>, reading: TimeVal): Shot {
    if n == self then RearmOn(ScriptOn(x.(active := false), n, script), reading)
    else ScriptOn(x, n, script)
  }

  /** `n` after the timers `fired` have fired. */
  function After(pass: Pass, x: Shot, n: HeapNode, fired: seq<HeapNode>): Shot {
    if fired == [] then x
    else
      var k := |fired| - 1;
      FireOn(After(pass, x, n, fired[..k]), n, fired[k], pass.acts(k), pass.clock(k))
  }

  lemma AfterStep(pass: Pass, x: Shot, n: HeapNode, fired: seq<HeapNode>, next: HeapNode)
    ensures After(pass, x, n, fired + [next]) == FireOn(After(pass, x, n, fired), n, next, pass.acts(|fired|), pass.clock(|fired|))
  {
    assert (fired + [next])[..|fired|] == fired;
  }

  predicate Due(pass: Pass, x: Shot) {
    x.active && Earlier(x.timeout, pass.now)
  }

  ghost predicate Proper(act: Act, timers: set<HeapNode>) {
    act.timer in timers && (act.Start? ==> Normal(act.current))
  }

  /** The clock never shows a time before that of the pass. */
  ghost predicate Clocked(pass: Pass) {
    && (forall k: nat :: Normal(pass.clock(k)) && !Earlier(pass.clock(k), pass.now))
    && forall k: nat, i :: 0 <= i < |pass.acts(k)| && pass.acts(k)[i].Start? ==>
         Normal(pass.acts(k)[i].current) && !Earlier(pass.acts(k)[i].current, pass.now)
  }

  /** Each timer that fired was due when its turn came, and none in the heap was
      earlier. */
  ghost predicate Ran(pass: Pass, was: Shots, older fired: seq<HeapNode>) {
    && (forall i :: 0 <= i < |fired| ==> fired[i] in was)
    && forall i :: 0 <= i < |fired| ==> FiredAt(pass, was, fired, i)
  }

  ghost predicate FiredAt(pass: Pass, was: Shots, fired: seq<HeapNode>, i: nat)
    requires i < |fired|
  {
    fired[i] in was && var x := After(pass, was[fired[i]], fired[i], fired[..i]);
    Due(pass, x) && forall n :: n in was && After(pass, was[n], n, fired[..i]).active ==> !Earlier(After(pass, was[n], n, fired[..i]).timeout, x.timeout)
  }

  lemma RanOn(pass: Pass, was: Shots, fired: seq<HeapNode>, next: HeapNode)
    requires Ran(pass, was, fired) && next in was && Due(pass, After(pass, was[next], next, fired))
    requires forall n :: n in was && After(pass, was[n], n, fired).active ==>
               !Earlier(After(pass, was[n], n, fired).timeout, After(pass, was[next], next, fired).timeout)
    ensures Ran(pass, was, fired + [next])
  {
    var fired' := fired + [next];
    forall i | 0 <= i < |fired'| ensures FiredAt(pass, was, fired', i) {
      assert fired'[..i] == fired[..i];
      if i < |fired| { assert FiredAt(pass, was, fired, i); } else { assert fired[..i] == fired; }
    }
  }

  // ---------- what the pass comes to ----------

  ghost predicate Sane(x: Shot) {
    Normal(x.timeout) && Normal(x.interval) && x.interval.sec >= 0
  }

  /** A callback of this clock that concerns no timer started before `now`. */
  ghost predicate Timely(pass: Pass, script: seq<Act>) {
    forall i :: 0 <= i < |script| && script[i].Start? ==> Normal(script[i].current) && !Earlier(script[i].current, pass.now)
  }

  lemma DeadlineIsLater(now: TimeVal, current: TimeVal, timeout: nat, interval: nat)
    requires Normal(now) && Normal(current) && !Earlier(current, now)
    ensures Normal(Deadline(current, timeout, interval)) && !Earlier(Deadline(current, timeout, interval), now)
    ensures Micros(Deadline(current, timeout, interval)) == Micros(current) + if timeout == 0 then interval else timeout
  {
    var d := if timeout == 0 then interval else timeout;
    MicrosInverse(d);
    RearmedIsLater(now, current, FromMicros(d));
    PlusIsAddition(current, FromMicros(d));
  }

  /** A timer due in the end was left alone by the callback. */
  lemma {:induction false} ScriptKeepsDue(pass: Pass, x: Shot, n: HeapNode, script: seq<Act>)
    requires Normal(pass.now) && Timely(pass, script) && Sane(x)
    ensures var y := ScriptOn(x, n, script); Sane(y) && (Due(pass, y) ==> y == x)
    decreases |script|
  {
    if script != [] {
      var k := |script| - 1;
      ScriptKeepsDue(pass, x, n, script[..k]);
      if script[k].Start? {
        var Start(_, current, timeout, interval) := script[k];
        DeadlineIsLater(pass.now, current, timeout, interval);
        MicrosInverse(interval);
      }
    }
  }

  /** A timer that its own callback starts, but not as a periodic one. */
  lemma {:induction false} SelfNotPeriodic(x: Shot, self: HeapNode, script: seq<Act>)
    requires !x.active && forall i :: 0 <= i < |script| && script[i].Start? && script[i].timer == self ==> script[i].interval == 0
    ensures var y := ScriptOn(x, self, script); y.active ==> !Periodic(y.interval)
    decreases |script|
  {
    if script != [] {
      var k := |script| - 1;
      assert forall i :: 0 <= i < k ==> script[..k][i] == script[i];
      SelfNotPeriodic(x, self, script[..k]);
    }
  }

  lemma {:induction false} FireKeepsDue(pass: Pass, x: Shot, n: HeapNode, self: HeapNode, k: nat)
    requires Normal(pass.now) && Clocked(pass) && Sane(x)
    ensures var y := FireOn(x, n, self, pass.acts(k), pass.clock(k)); Sane(y) && (Due(pass, y) ==> n != self && y == x)
  {
    var x' := if n == self then x.(active := false) else x;
    ScriptKeepsDue(pass, x', n, pass.acts(k));
    var y := ScriptOn(x', n, pass.acts(k));
    RearmedIsLater(pass.now, pass.clock(k), y.interval);
    PlusIsAddition(pass.clock(k), y.interval);
  }

  /** A timer that is due after some have fired is as it was in the beginning, and
      none of them. */
  lemma {:induction false} StillDue(pass: Pass, x: Shot, n: HeapNode, fired: seq<HeapNode>)
    requires Normal(pass.now) && Clocked(pass) && Sane(x)
    ensures Sane(After(pass, x, n, fired))
    ensures Due(pass, After(pass, x, n, fired)) ==> After(pass, x, n, fired) == x && n !in fired
    decreases |fired|
  {
    if fired != [] {
      var k := |fired| - 1;
      StillDue(pass, x, n, fired[..k]);
      FireKeepsDue(pass, After(pass, x, n, fired[..k]), n, fired[k], k);
      assert fired == fired[..k] + [fired[k]];
    }
  }

  lemma {:induction false} DueAllAlong(pass: Pass, x: Shot, n: HeapNode, fired: seq<HeapNode>, i: nat)
    requires Normal(pass.now) && Clocked(pass) && Sane(x) && i <= |fired| && Due(pass, After(pass, x, n, fired))
    ensures After(pass, x, n, fired[..i]) == x && Due(pass, x)
    decreases |fired|
  {
    StillDue(pass, x, n, fired);
    if i == |fired| {
      assert fired[..i] == fired;
    } else {
      var k := |fired| - 1;
      StillDue(pass, x, n, fired[..k]);
      FireKeepsDue(pass, After(pass, x, n, fired[..k]), n, fired[k], k);
      DueAllAlong(pass, x, n, fired[..k], i);
      assert fired[..k][..i] == fired[..i];
    }
  }

  ghost predicate AllSane(was: Shots) {
    forall n :: n in was ==> Sane(was[n])
  }

  /** The timers that are due. */
  function AllDue(pass: Pass, was: Shots, fired: seq<HeapNode>): set<HeapNode> {
    set n | n in was && Due(pass, After(pass, was[n], n, fired))
  }

  /** Each turn leaves fewer of them. */
  lemma FewerDue(pass: Pass, was: Shots, fired: seq<HeapNode>, next: HeapNode)
    requires Normal(pass.now) && Clocked(pass) && AllSane(was) && next in AllDue(pass, was, fired)
    ensures AllDue(pass, was, fired + [next]) < AllDue(pass, was, fired)
  {
    forall n | n in was && Due(pass, After(pass, was[n], n, fired + [next])) ensures n in AllDue(pass, was, fired) && n != next {
      StillDue(pass, was[n], n, fired);
      AfterStep(pass, was[n], n, fired, next);
      FireKeepsDue(pass, After(pass, was[n], n, fired), n, next, |fired|);
    }
  }

  /** One of the callbacks from the `i`-th to the one before the `j`-th stops `n`. */
  ghost predicate Stopped(pass: Pass, i: nat, j: nat, n: HeapNode) {
    exists k: nat :: i <= k < j && Stop(n) in pass.acts(k)
  }

  ghost predicate Starts(script: seq<Act>, n: HeapNode) {
    exists i :: 0 <= i < |script| && script[i].Start? && script[i].timer == n
  }

  lemma DueIff(pass: Pass, x: Shot)
    requires Normal(pass.now) && Sane(x)
    ensures Due(pass, x) <==> x.active && Micros(x.timeout) < Micros(pass.now)
  {
    EarlierIsLess(x.timeout, pass.now);
  }

  /** Every timer that fires was due in the beginning, with the same deadline, and
      was not stopped before its turn. */
  lemma {:induction false} FiredWasDue(pass: Pass, was: Shots, fired: seq<HeapNode>, i: nat)
    requires Normal(pass.now) && Clocked(pass) && AllSane(was) && Ran(pass, was, fired) && i < |fired|
    ensures fired[i] in was && Due(pass, was[fired[i]]) && After(pass, was[fired[i]], fired[i], fired[..i]) == was[fired[i]]
    ensures was[fired[i]].active && Micros(was[fired[i]].timeout) < Micros(pass.now)
    ensures fired[i] !in fired[..i] && !Stopped(pass, 0, i, fired[i])
  {
    assert FiredAt(pass, was, fired, i);
    var n := fired[i];
    StillDue(pass, was[n], n, fired[..i]);
    DueIff(pass, was[n]);
    forall k: nat | k < i ensures Stop(n) !in pass.acts(k) { NotStoppedAt(pass, was[n], n, fired[..i], k); }
  }

  lemma {:induction false} NotStoppedAt(pass: Pass, x: Shot, n: HeapNode, fired: seq<HeapNode>, k: nat)
    requires Normal(pass.now) && Clocked(pass) && Sane(x) && k < |fired| && Due(pass, After(pass, x, n, fired))
    ensures Stop(n) !in pass.acts(k)
  {
    DueAllAlong(pass, x, n, fired, k);
    DueAllAlong(pass, x, n, fired, k + 1);
    assert fired[..k + 1] == fired[..k] + [fired[k]];
    AfterStep(pass, x, n, fired[..k], fired[k]);
    FireKeepsDue(pass, x, n, fired[k], k);
    if Stop(n) in pass.acts(k) {
      StopTakesOut(pass, x, n, pass.acts(k));
    }
  }

  /** An active timer that a callback stops is not as it was. */
  lemma {:induction false} StopTakesOut(pass: Pass, x: Shot, n: HeapNode, script: seq<Act>)
    requires Due(pass, x) && Sane(x) && Normal(pass.now) && Timely(pass, script) && Stop(n) in script
    ensures !Due(pass, ScriptOn(x, n, script))
    decreases |script|
  {
    var k := |script| - 1;
    assert script == script[..k] + [script[k]];
    ScriptKeepsDue(pass, x, n, script);
    ScriptKeepsDue(pass, x, n, script[..k]);
    if script[k] != Stop(n) {
      StopTakesOut(pass, x, n, script[..k]);
      var y := ScriptOn(x, n, script[..k]);
      if script[k].Start? {
        DeadlineIsLater(pass.now, script[k].current, script[k].timeout, script[k].interval);
      }
    }
  }

  /** No timer fires twice, and they fire in the order of their deadlines. */
  lemma FiredInOrder(pass: Pass, was: Shots, fired: seq<HeapNode>, i: nat, j: nat)
    requires Normal(pass.now) && Clocked(pass) && AllSane(was) && Ran(pass, was, fired) && i < j < |fired|
    ensures fired[i] in was && fired[j] in was && fired[i] != fired[j]
    ensures !Earlier(was[fired[j]].timeout, was[fired[i]].timeout)
  {
    FiredWasDue(pass, was, fired, i);
    FiredWasDue(pass, was, fired, j);
    DueAllAlong(pass, was[fired[j]], fired[j], fired[..j], i);
    assert fired[..j][..i] == fired[..i];
    assert FiredAt(pass, was, fired, i);
  }

  /** A due timer that no callback stops or starts stays due until it fires. */
  lemma {:induction false} WaitsItsTurn(pass: Pass, x: Shot, n: HeapNode, fired: seq<HeapNode>)
    requires Due(pass, x) && n !in fired && forall k: nat :: k < |fired| ==> Stop(n) !in pass.acts(k) && !Starts(pass.acts(k), n)
    ensures After(pass, x, n, fired) == x
    decreases |fired|
  {
    if fired != [] {
      var k := |fired| - 1;
      WaitsItsTurn(pass, x, n, fired[..k]);
      ActiveKept(x, n, pass.acts(k));
    }
  }

  /** Only a stop or a start changes an active timer. */
  lemma {:induction false} ActiveKept(x: Shot, n: HeapNode, script: seq<Act>)
    requires x.active && Stop(n) !in script && !Starts(script, n)
    ensures ScriptOn(x, n, script) == x
    decreases |script|
  {
    if script != [] {
      var k := |script| - 1;
      assert script == script[..k] + [script[k]];
      assert forall i :: 0 <= i < k ==> script[..k][i] == script[i];
      ActiveKept(x, n, script[..k]);
    }
  }

  /** When nothing is due any more, a timer that was due has fired, unless a callback
      stopped it or started it for later before its turn. */
  lemma FiresUnlessCalled(pass: Pass, was: Shots, fired: seq<HeapNode>, n: HeapNode)
    requires Normal(pass.now) && Clocked(pass) && AllSane(was) && Ran(pass, was, fired)
    requires n in was && Due(pass, was[n]) && !Due(pass, After(pass, was[n], n, fired)) && n !in fired
    ensures exists k: nat :: k < |fired| && (Stop(n) in pass.acts(k) || Starts(pass.acts(k), n))
  {
    if forall k: nat :: k < |fired| ==> Stop(n) !in pass.acts(k) && !Starts(pass.acts(k), n) {
      WaitsItsTurn(pass, was[n], n, fired);
    }
  }

  // ---------- callbacks that leave active timers alone ----------

  /** The timers when the callback of `self` begins. */
  function Taken(shots: Shots, self: HeapNode): Shots {
    map n | n in shots :: if n == self then shots[n].(active := false) else shots[n]
  }

  function ShotsAfter(pass: Pass, was: Shots, fired: seq<HeapNode>): Shots {
    map n | n in was :: After(pass, was[n], n, fired)
  }

  /** Each timer that the callback of `self` starts is inactive at that moment, and
      `self` is started for one time only. */
  ghost predicate Heeds(shots: Shots, script: seq<Act>, self: HeapNode) {
    forall i :: 0 <= i < |script| && script[i].Start? && script[i].timer in shots ==>
      && !ScriptOn(shots[script[i].timer], script[i].timer, script[..i]).active
      && (script[i].timer == self ==> script[i].interval == 0)
  }

  /** However the pass goes, no callback starts a timer that is active, nor its own as
      a periodic one, which the loop would start again. */
  ghost predicate Heedful(pass: Pass, was: Shots) {
    forall fired :: Ran(pass, was, fired) && fired != [] ==> LastHeeds(pass, was, fired)
  }

  ghost predicate LastHeeds(pass: Pass, was: Shots, fired: seq<HeapNode>)
    requires fired != []
  {
    var k := |fired| - 1;
    Heeds(Taken(ShotsAfter(pass, was, fired[..k]), fired[k]), pass.acts(k), fired[k])
  }

  lemma NextHeeds(pass: Pass, was: Shots, fired: seq<HeapNode>, next: HeapNode)
    requires Heedful(pass, was) && Ran(pass, was, fired + [next])
    ensures Heeds(Taken(ShotsAfter(pass, was, fired), next), pass.acts(|fired|), next)
  {
    assert (fired + [next])[..|fired|] == fired;
    assert LastHeeds(pass, was, fired + [next]);
  }

  lemma {:induction false} ActiveHeeded(shots: Shots, n: HeapNode, script: seq<Act>, self: HeapNode)
    requires n in shots && shots[n].active && Stop(n) !in script && Heeds(shots, script, self)
    ensures ScriptOn(shots[n], n, script) == shots[n]
    decreases |script|
  {
    if script != [] {
      var k := |script| - 1;
      assert script == script[..k] + [script[k]];
      assert forall i :: 0 <= i < k ==> script[..k][i] == script[i] && script[..k][..i] == script[..i];
      ActiveHeeded(shots, n, script[..k], self);
    }
  }

  lemma RanBefore(pass: Pass, was: Shots, fired: seq<HeapNode>, k: nat)
    requires Ran(pass, was, fired) && k <= |fired|
    ensures Ran(pass, was, fired[..k])
  {
    forall i | 0 <= i < k ensures FiredAt(pass, was, fired[..k], i) {
      assert FiredAt(pass, was, fired, i);
      assert fired[..k][..i] == fired[..i];
    }
  }

  lemma {:induction false} WaitsUnlessStopped(pass: Pass, was: Shots, n: HeapNode, fired: seq<HeapNode>)
    requires Ran(pass, was, fired) && Heedful(pass, was) && n in was && Due(pass, was[n]) && n !in fired
    requires !Stopped(pass, 0, |fired|, n)
    ensures After(pass, was[n], n, fired) == was[n]
    decreases |fired|
  {
    if fired != [] {
      var k := |fired| - 1;
      RanBefore(pass, was, fired, k);
      WaitsUnlessStopped(pass, was, n, fired[..k]);
      assert LastHeeds(pass, was, fired) && Stop(n) !in pass.acts(k);
      ActiveHeeded(Taken(ShotsAfter(pass, was, fired[..k]), fired[k]), n, pass.acts(k), fired[k]);
    }
  }

  /** With such callbacks, a timer that was due has fired exactly unless a callback
      stopped it before its turn. */
  lemma FiresUnlessStopped(pass: Pass, was: Shots, fired: seq<HeapNode>, n: HeapNode)
    requires Normal(pass.now) && Clocked(pass) && AllSane(was) && Ran(pass, was, fired) && Heedful(pass, was)
    requires n in was && Due(pass, was[n]) && !Due(pass, After(pass, was[n], n, fired))
    ensures n !in fired ==> Stopped(pass, 0, |fired|, n)
    ensures n in fired ==> exists i :: 0 <= i < |fired| && fired[i] == n && !Stopped(pass, 0, i, n)
  {
    if n in fired {
      var i :| 0 <= i < |fired| && fired[i] == n;
      FiredWasDue(pass, was, fired, i);
    } else if !Stopped(pass, 0, |fired|, n) {
      WaitsUnlessStopped(pass, was, n, fired);
    }
  }

  /** Where a timer stands right after it fired, if its callback does not start it. */
  lemma {:induction false} NotStarted(x: Shot, n: HeapNode, script: seq<Act>)
    requires !x.active && !Starts(script, n)
    ensures ScriptOn(x, n, script) == x.(stop := x.stop || Stop(n) in script)
    decreases |script|
  {
    if script != [] {
      var k := |script| - 1;
      assert script == script[..k] + [script[k]];
      assert forall i :: 0 <= i < k ==> script[..k][i] == script[i];
      NotStarted(x, n, script[..k]);
    }
  }

  /** A timer that fired is in the heap again exactly if its interval is positive and
      it is not stopped, one interval after the clock. */
  ghost predicate BackAgain(x: Shot, y: Shot, reading: TimeVal, stopped: bool) {
    && (y.active <==> Micros(x.interval) > 0 && !x.stop && !stopped)
    && (y.active ==> Micros(y.timeout) == Micros(reading) + Micros(x.interval))
  }

  lemma FiredSelf(x: Shot, n: HeapNode, script: seq<Act>, reading: TimeVal)
    requires Sane(x) && Normal(reading)
    ensures !Starts(script, n) ==> BackAgain(x, FireOn(x, n, n, script, reading), reading, Stop(n) in script)
  {
    if !Starts(script, n) {
      NotStarted(x.(active := false), n, script);
      RearmIff(ScriptOn(x.(active := false), n, script), reading);
    }
  }

  /** A timer that fires and is started by no later callback is back in the end
      exactly if its interval is positive, it was not stopped before, and no callback
      from its own on stops it; its deadline is one interval after the clock. */
  lemma {:induction false} BackIff(pass: Pass, was: Shots, fired: seq<HeapNode>, i: nat, m: nat)
    requires Normal(pass.now) && Clocked(pass) && AllSane(was) && Ran(pass, was, fired) && i < m <= |fired|
    requires forall k: nat :: i <= k < m ==> !Starts(pass.acts(k), fired[i])
    ensures fired[i] in was
    ensures var n := fired[i]; var y := After(pass, was[n], n, fired[..m]);
      && (y.active <==> Micros(was[n].interval) > 0 && !was[n].stop && !Stopped(pass, i, m, n))
      && (y.active ==> !y.stop && Normal(y.timeout) && Micros(y.timeout) == Micros(pass.clock(i)) + Micros(was[n].interval))
      && (!y.active ==> Micros(was[n].interval) > 0 ==> y.stop)
      && y.interval == was[n].interval
    decreases m
  {
    var n, k := fired[i], m - 1;
    FiredWasDue(pass, was, fired, i);
    assert fired[..m] == fired[..k] + [fired[k]];
    AfterStep(pass, was[n], n, fired[..k], fired[k]);
    if k == i {
      NotStarted(was[n].(active := false), n, pass.acts(k));
      RearmIff(ScriptOn(was[n].(active := false), n, pass.acts(k)), pass.clock(k));
    } else {
      FiredInOrder(pass, was, fired, i, k);
      BackIff(pass, was, fired, i, k);
      var y := After(pass, was[n], n, fired[..k]);
      if y.active && Stop(n) !in pass.acts(k) {
        ActiveKept(y, n, pass.acts(k));
      } else {
        StoppedOut(y, n, pass.acts(k));
      }
    }
  }

  /** Of all that a callback does to a timer only the last call matters. */
  lemma {:induction false} LastCallDecides(x: Shot, n: HeapNode, script: seq<Act>, i: nat)
    requires i < |script| && script[i].timer == n && (script[i].Start? ==> Normal(script[i].current))
    requires forall j :: i < j < |script| ==> script[j].timer != n
    ensures var y := ScriptOn(x, n, script);
      match script[i]
      case Stop(_) => !y.active && y.stop
      case Start(_, current, timeout, interval) =>
        && y.active && !y.stop && Micros(y.interval) == interval
        && Micros(y.timeout) == Micros(current) + if timeout == 0 then interval else timeout
    decreases |script|
  {
    var k := |script| - 1;
    if i < k {
      assert forall j :: 0 <= j < k ==> script[..k][j] == script[j];
      LastCallDecides(x, n, script[..k], i);
    } else if script[i].Start? {
      MicrosInverse(script[i].interval);
      MicrosInverse(if script[i].timeout == 0 then script[i].interval else script[i].timeout);
      PlusIsAddition(script[i].current, FromMicros(if script[i].timeout == 0 then script[i].interval else script[i].timeout));
    }
  }

  /** Stopped and not started, a timer is out. */
  lemma {:induction false} StoppedOut(x: Shot, n: HeapNode, script: seq<Act>)
    requires !Starts(script, n) && (x.active ==> Stop(n) in script)
    ensures var y := ScriptOn(x, n, script);
            !y.active && y.interval == x.interval && (y.stop <==> x.stop || Stop(n) in script)
    decreases |script|
  {
    if !x.active {
      NotStarted(x, n, script);
    } else {
      var k := |script| - 1;
      assert script == script[..k] + [script[k]];
      assert forall i :: 0 <= i < k ==> script[..k][i] == script[i];
      if Stop(n) in script[..k] { StoppedOut(x, n, script[..k]); } else { ActiveKept(x, n, script[..k]); }
    }
  }
}
