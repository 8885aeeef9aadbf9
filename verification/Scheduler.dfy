/** Coroutines on one event loop: channels, select, the ready queue and the status
    of coroutines together, from src/lc_channel.c, src/lc_runtime.c and
    src/lc_coroutine.c.  Between two switches of control a step runs undisturbed. */
module Scheduler {
  import opened Collections
  import opened ChannelSpec
  import Q = ReadyQueue

  datatype Status = Starting | Ready | Running | Waiting | Terminated

  datatype Case = Push(ch: nat, ele: Value) | Pop(ch: nat)

  /** Where a coroutine is: in its own code, parked in a push or a pop (with what a
      writer stored for it), or inside a select. */
  datatype Pc =
    | User
    | PushWait(ch: nat, v: Value)
    | PopWait(ch: nat, got: Option<Value>)
    | Choosing(cases: seq<Case>, blocked: bool)
    | Parked(cases: seq<Case>)

  /** What a coroutine's last operation returned. */
  datatype Result =
    | Fresh
    | PushDone(ch: nat, v: Value)
    | PushClosed
    | PushNotDone
    | PopDone(ch: nat, v: Value)
    | PopNull
    | PopFailed
    | Closed
    | Selected(c: Case, got: Option<Value>)
    | NothingSelected

  /** `co` is the coroutine whose operation it is, if any. */
  datatype Event = Event(co: Option<Co>, put: bool, ch: nat, v: Value)

  /** `since` is the length of the log when the last operation began. */
  datatype Coroutine = Coroutine(status: Status, pc: Pc, since: nat, result: Result)

  datatype State = State(
    chans: seq<Channel>,
    cos: seq<Coroutine>,
    rq: seq<Co>,             // the ready queue
    later: seq<Co>,          // ready again after this pass
    running: Option<Co>,     // the coroutine that runs, if any
    log: seq<Event>,         // values accepted and delivered
    stuck: bool)             // a change of status waits for ever

  datatype Action =
    | PushOp(ch: nat, v: Value, blocked: bool)
    | PopOp(ch: nat, blocked: bool)
    | OfferOp(ch: nat, v: Value)              // unenforceable push
    | GrabOp(ch: nat)                         // unenforceable pop
    | CloseOp(ch: nat)
    | SelectOp(cases: seq<Case>, blocked: bool)
    | Choose                                  // one round of the select's loop
    | PollOp(cases: seq<Case>)                // such a round by the event loop itself
    | YieldOp
    | FinishOp
    | JoinOp(co: Co)                          // joins a coroutine that never ran
    | Resume                                  // the pass pops and resumes
    | EndPass                                 // the pass merges

  function Of(s: State, co: Co): Coroutine {
    if co < |s.cos| then s.cos[co] else Coroutine(Terminated, User, 0, Fresh)
  }

  function With(s: State, co: Co, x: Coroutine): State {
    if co < |s.cos| then s.(cos := s.cos[co := x]) else s
  }

  ghost predicate DistinctCases(s: State, cases: seq<Case>) {
    && (forall i :: 0 <= i < |cases| ==> cases[i].ch < |s.chans|)
    && forall i, j :: 0 <= i < j < |cases| ==> cases[i].ch != cases[j].ch
  }

  /** The event loop itself, or a coroutine in its own code. */
  predicate Free(s: State) {
    s.running.Some? ==> Of(s, s.running.value).pc.User?
  }

  ghost predicate Enabled(s: State, a: Action) {
    !s.stuck && match a
    case PushOp(ch, _, blocked) => Free(s) && ch < |s.chans| && (blocked ==> s.running.Some?)
    case PopOp(ch, blocked) => Free(s) && ch < |s.chans| && (blocked ==> s.running.Some?)
    case OfferOp(ch, _) => Free(s) && ch < |s.chans|
    case GrabOp(ch) => Free(s) && ch < |s.chans|
    case CloseOp(ch) => Free(s) && ch < |s.chans|
    case SelectOp(cases, _) => s.running.Some? && Free(s) && DistinctCases(s, cases)
    case Choose => s.running.Some? && Of(s, s.running.value).pc.Choosing? && DistinctCases(s, Of(s, s.running.value).pc.cases)
    case PollOp(cases) => s.running.None? && DistinctCases(s, cases)
    case YieldOp => s.running.Some? && Free(s)
    case FinishOp => s.running.Some? && Free(s)
    case JoinOp(co) => Free(s) && co < |s.cos| && s.cos[co].status.Starting?
    case Resume => s.running.None? && s.rq != []
    case EndPass => s.running.None? && s.rq == []
  }

  /** `liteco_chan_join_runtime`: from Waiting to Ready, and into the queue.  A
      coroutine that runs is left as it is; in any other status the change never
      comes about. */
  function Wake(s: State, co: Co): State {
    match Of(s, co).status
    case Running => s.(rq := Q.Enqueue(s.rq, co))
    case Waiting => With(s, co, Of(s, co).(status := Ready)).(rq := Q.Enqueue(s.rq, co))
    case _ => s.(stuck := true)
  }

  function WakeAll(s: State, ks: seq<Co>): State
    decreases |ks|
  {
    if ks == [] then s else WakeAll(Wake(s, ks[0]), ks[1..])
  }

  function WakeOption(s: State, co: Option<Co>): State {
    if co.Some? then Wake(s, co.value) else s
  }

  function Logged(s: State, e: Event): State {
    s.(log := s.log + [e])
  }

  /** The value is stored for a parked reader. */
  function Deliver(s: State, k: Co, ch: nat, v: Value): State {
    var x := Of(s, k);
    Logged(With(s, k, x.(pc := if x.pc.PopWait? then x.pc.(got := Some(v)) else x.pc)), Event(Some(k), false, ch, v))
  }

  /** `liteco_chan_w` with its effects on coroutines. */
  function TryWrite(s: State, ch: nat, v: Value): (State, bool)
    requires ch < |s.chans|
  {
    var x := Write(s.chans[ch], v);
    var s := s.(chans := s.chans[ch := x.chan]);
    var s := if x.done then Logged(s, Event(s.running, true, ch, v)) else s;
    var s := if x.reader.Some? then Deliver(s, x.reader.value, ch, v) else s;
    (WakeOption(s, x.wake), x.done)
  }

  /** `liteco_chan_r`. */
  function TryRead(s: State, ch: nat): (State, bool, Option<Value>)
    requires ch < |s.chans|
  {
    var x := Read(s.chans[ch]);
    var s := s.(chans := s.chans[ch := x.chan]);
    var s := if x.value.Some? then Logged(s, Event(s.running, false, ch, x.value.value)) else s;
    (WakeOption(s, x.wake), x.done, x.value)
  }

  function Begun(s: State): State {
    if s.running.Some? then With(s, s.running.value, Of(s, s.running.value).(since := |s.log|, result := Fresh)) else s
  }

  function Ended(s: State, result: Result): State {
    if s.running.Some? then With(s, s.running.value, Of(s, s.running.value).(pc := User, result := result)) else s
  }

  /** A change of the running coroutine's status, which never comes about unless
      that is Running. */
  function Leaving(s: State, status: Status): State {
    if s.running.None? then s
    else if Of(s, s.running.value).status.Running? then With(s, s.running.value, Of(s, s.running.value).(status := status))
    else s.(stuck := true)
  }

  /** The running coroutine waits, and control goes back to the event loop. */
  function Suspended(s: State, pc: Pc): State {
    if s.running.None? then s
    else
      var t := Leaving(s, Waiting);
      With(t, s.running.value, Of(t, s.running.value).(pc := pc)).(running := None)
  }

  function AddWriter(s: State, ch: nat, x: Writer): State
    requires ch < |s.chans|
  {
    s.(chans := s.chans[ch := s.chans[ch].(w := [x] + s.chans[ch].w)])
  }

  function AddReader(s: State, ch: nat, x: Reader): State
    requires ch < |s.chans|
  {
    s.(chans := s.chans[ch := s.chans[ch].(r := [x] + s.chans[ch].r)])
  }

  function ParkedPush(s: State, ch: nat, v: Value): State
    requires ch < |s.chans|
  {
    Suspended(AddWriter(Logged(s, Event(s.running, true, ch, v)), ch, Writer(s.running, v, false)), PushWait(ch, v))
  }

  function ParkedPop(s: State, me: Co, ch: nat): State
    requires ch < |s.chans|
  {
    Suspended(AddReader(s, ch, Reader(me, false)), PopWait(ch, None))
  }

  function LeftBehind(s: State, ch: nat, v: Value): State
    requires ch < |s.chans|
  {
    AddWriter(Logged(s, Event(s.running, true, ch, v)), ch, Writer(None, v, false))
  }

  function AfterPush(s: State, done: bool, ch: nat, v: Value, blocked: bool): State
    requires ch < |s.chans|
  {
    if done then Ended(s, PushDone(ch, v)) else if blocked then ParkedPush(s, ch, v) else Ended(s, PushNotDone)
  }

  function AfterPop(s: State, value: Option<Value>, ch: nat, blocked: bool): State
    requires ch < |s.chans| && (blocked ==> s.running.Some?)
  {
    if value.Some? then Ended(s, PopDone(ch, value.value))
    else if blocked then ParkedPop(s, s.running.value, ch)
    else Ended(s, PopFailed)
  }

  function PushStep(s: State, ch: nat, v: Value, blocked: bool): State
    requires ch < |s.chans|
  {
    if s.chans[ch].closed then Ended(Begun(s), PushClosed)
    else
      var (s, done) := TryWrite(Begun(s), ch, v);
      AfterPush(s, done, ch, v, blocked)
  }

  function PopStep(s: State, ch: nat, blocked: bool): State
    requires ch < |s.chans| && (blocked ==> s.running.Some?)
  {
    if s.chans[ch].closed then Ended(Begun(s), PopNull)
    else
      var (t, _, value) := TryRead(Begun(s), ch);
      AfterPop(t, value, ch, blocked)
  }

  function OfferStep(s: State, ch: nat, v: Value): State
    requires ch < |s.chans|
  {
    if s.chans[ch].closed then Ended(Begun(s), PushClosed)
    else
      var (s, done) := TryWrite(Begun(s), ch, v);
      Ended(if done then s else LeftBehind(s, ch, v), PushDone(ch, v))
  }

  function GrabStep(s: State, ch: nat): State
    requires ch < |s.chans|
  {
    if s.chans[ch].closed then Ended(Begun(s), PopFailed) else PopStep(s, ch, false)
  }

  function Shut(c: Channel): Channel {
    c.(closed := true, w := [], r := [])
  }

  function Closing(s: State, ch: nat): State
    requires ch < |s.chans|
  {
    WakeAll(s.(chans := s.chans[ch := Shut(s.chans[ch])]), Sleepers(s.chans[ch]))
  }

  function CloseStep(s: State, ch: nat): State
    requires ch < |s.chans|
  {
    Ended(if s.chans[ch].closed then Begun(s) else Closing(Begun(s), ch), Closed)
  }

  predicate MustWait(chans: seq<Channel>, x: Case)
    requires x.ch < |chans|
  {
    if x.Push? then WBlocked(chans[x.ch]) else RBlocked(chans[x.ch])
  }

  /** The place of the first case that need not wait, or the number of cases. */
  function Available(chans: seq<Channel>, cases: seq<Case>): (i: nat)
    requires forall i :: 0 <= i < |cases| ==> cases[i].ch < |chans|
    ensures i <= |cases| && (i < |cases| ==> !MustWait(chans, cases[i]))
    ensures forall j :: 0 <= j < i ==> MustWait(chans, cases[j])
    decreases |cases|
  {
    if cases == [] || !MustWait(chans, cases[0]) then 0 else 1 + Available(chans, cases[1..])
  }

  function PostOne(c: Channel, me: Co, x: Case): Channel {
    match x
    case Push(_, ele) => c.(w := [Writer(Some(me), ele, true)] + c.w)
    case Pop(_) => c.(r := [Reader(me, true)] + c.r)
  }

  function Post(chans: seq<Channel>, me: Co, cases: seq<Case>): seq<Channel>
    requires forall i :: 0 <= i < |cases| ==> cases[i].ch < |chans|
    decreases |cases|
  {
    if cases == [] then chans
    else Post(chans[cases[0].ch := PostOne(chans[cases[0].ch], me, cases[0])], me, cases[1..])
  }

  function UnpostOne(c: Channel, me: Co, x: Case): Channel {
    match x
    case Push(_, _) => c.(w := WritersWithout(c.w, me))
    case Pop(_) => c.(r := ReadersWithout(c.r, me))
  }

  function Unpost(chans: seq<Channel>, me: Co, cases: seq<Case>): seq<Channel>
    decreases |cases|
  {
    if cases == [] then chans
    else if cases[0].ch < |chans| then Unpost(chans[cases[0].ch := UnpostOne(chans[cases[0].ch], me, cases[0])], me, cases[1..])
    else Unpost(chans, me, cases[1..])
  }

  /** A push or a pop that does not wait; one that is not done leaves the select at
      the top of its loop. */
  function TryCase(s: State, x: Case): State
    requires x.ch < |s.chans|
  {
    if x.Push? then
      if s.chans[x.ch].closed then s
      else
        var (s, done) := TryWrite(s, x.ch, x.ele);
        if done then Ended(s, Selected(x, None)) else s
    else
      if s.chans[x.ch].closed then Ended(s, Selected(x, None))
      else
        var (s, done, value) := TryRead(s, x.ch);
        if done then Ended(s, Selected(x, value)) else s
  }

  /** One round: take the first case that need not wait and try it without waiting;
      without one, post a waiter on every channel and park.  A case that could not
      be carried out after all leads to another round. */
  function ChooseStep(s: State, me: Co, cases: seq<Case>, blocked: bool): State
    requires forall i :: 0 <= i < |cases| ==> cases[i].ch < |s.chans|
  {
    var i := Available(s.chans, cases);
    if i < |cases| then TryCase(s, cases[i])
    else if !blocked then Ended(s, NothingSelected)
    else Suspended(s.(chans := Post(s.chans, me, cases)), Parked(cases))
  }

  /** One round of a select that nobody can wait in. */
  function PollStep(s: State, cases: seq<Case>): State
    requires forall i :: 0 <= i < |cases| ==> cases[i].ch < |s.chans|
  {
    var i := Available(s.chans, cases);
    if i < |cases| then TryCase(s, cases[i]) else s
  }

  /** Where a resumed coroutine goes on; a select first takes its waiters back. */
  function Resumed(s: State, k: Co): State {
    var x := Of(s, k).(status := Running);
    var s := s.(running := Some(k));
    match x.pc
    case PushWait(ch, v) => With(s, k, x.(pc := User, result := PushDone(ch, v)))
    case PopWait(ch, got) => With(s, k, x.(pc := User, result := if got.Some? then PopDone(ch, got.value) else PopNull))
    case Parked(cases) => With(s, k, x.(pc := Choosing(cases, true))).(chans := Unpost(s.chans, k, cases))
    case _ => With(s, k, x)
  }

  function ResumeStep(s: State): State
    requires s.rq != []
  {
    var k := s.rq[0];
    var s := s.(rq := s.rq[1..]);
    match Of(s, k).status
    case Terminated => s
    case Starting => Resumed(s, k)
    case Ready => Resumed(s, k)
    case _ => s.(stuck := true)
  }

  /** `liteco_yield`: a running coroutine becomes ready, and the pass keeps those
      that it finds ready when control is back. */
  function Yielded(s: State): State
    requires s.running.Some?
  {
    var me := s.running.value;
    var t := if Of(s, me).status.Running? then With(s, me, Of(s, me).(status := Ready)) else s;
    t.(running := None, later := if Of(t, me).status.Ready? then s.later + [me] else s.later)
  }

  /** The end of `liteco_run`. */
  function Finished(s: State): State
    requires s.running.Some?
  {
    Leaving(s, Terminated).(running := None)
  }

  function Do(s: State, a: Action): State
    requires Enabled(s, a)
  {
    match a
    case PushOp(ch, v, blocked) => PushStep(s, ch, v, blocked)
    case PopOp(ch, blocked) => PopStep(s, ch, blocked)
    case OfferOp(ch, v) => OfferStep(s, ch, v)
    case GrabOp(ch) => GrabStep(s, ch)
    case CloseOp(ch) => CloseStep(s, ch)
    case SelectOp(cases, blocked) =>
      With(Begun(s), s.running.value, Of(Begun(s), s.running.value).(pc := Choosing(cases, blocked)))
    case Choose => ChooseStep(s, s.running.value, Of(s, s.running.value).pc.cases, Of(s, s.running.value).pc.blocked)
    case PollOp(cases) => PollStep(s, cases)
    case YieldOp => Yielded(s)
    case FinishOp => Finished(s)
    case JoinOp(co) => s.(rq := Q.Enqueue(s.rq, co))
    case Resume => ResumeStep(s)
    case EndPass => s.(rq := Q.Merge(s.rq, s.later), later := [])
  }

  ghost predicate Init(s: State) {
    && !s.stuck && s.running == None && s.rq == s.later == [] && s.log == []
    && (forall ch :: 0 <= ch < |s.chans| ==> s.chans[ch] == Channel(s.chans[ch].cap, [], [], [], false))
    && forall k :: 0 <= k < |s.cos| ==> s.cos[k] == Coroutine(Starting, User, 0, Fresh)
  }

  ghost predicate Reaches(s: State, run: seq<Action>, s': State)
    decreases |run|
  {
    if run == [] then s == s' else Enabled(s, run[0]) && Reaches(Do(s, run[0]), run[1..], s')
  }

  // ---------- the log ----------

  /** The values that channel `ch` accepted, in order. */
  function Puts(log: seq<Event>, ch: nat): seq<Value> {
    if log == [] then []
    else
      var e := log[|log| - 1];
      Puts(log[..|log| - 1], ch) + if e.put && e.ch == ch then [e.v] else []
  }

  /** The values that it delivered. */
  function Takes(log: seq<Event>, ch: nat): seq<Value> {
    if log == [] then []
    else
      var e := log[|log| - 1];
      Takes(log[..|log| - 1], ch) + if !e.put && e.ch == ch then [e.v] else []
  }

  /** What `k` accepted or delivered from place `since` on. */
  function Did(log: seq<Event>, since: nat, k: Co): seq<Event>
    decreases |log|
  {
    if |log| <= since then []
    else
      var e := log[|log| - 1];
      Did(log[..|log| - 1], since, k) + if e.co == Some(k) then [e] else []
  }

  /** What an operation that returns `result` should have done, once. */
  function Effects(k: Co, result: Result): seq<Event> {
    match result
    case PushDone(ch, v) => [Event(Some(k), true, ch, v)]
    case PopDone(ch, v) => [Event(Some(k), false, ch, v)]
    case Selected(Push(ch, v), _) => [Event(Some(k), true, ch, v)]
    case Selected(Pop(ch), Some(v)) => [Event(Some(k), false, ch, v)]
    case _ => []
  }

  lemma {:induction false} LogStep(log: seq<Event>, e: Event)
    ensures forall ch: nat :: Puts(log + [e], ch) == Puts(log, ch) + if e.put && e.ch == ch then [e.v] else []
    ensures forall ch: nat :: Takes(log + [e], ch) == Takes(log, ch) + if !e.put && e.ch == ch then [e.v] else []
    ensures forall since: nat, k: Co :: since <= |log| ==> Did(log + [e], since, k) == Did(log, since, k) + if e.co == Some(k) then [e] else []
  {
    assert (log + [e])[..|log|] == log;
  }

  // ---------- the invariant ----------

  ghost predicate UniqueWriters(w: seq<Writer>) {
    w != [] ==> (w[0].co.Some? ==> forall x :: x in w[1..] ==> x.co != w[0].co) && UniqueWriters(w[1..])
  }

  ghost predicate UniqueReaders(r: seq<Reader>) {
    r != [] ==> (forall x :: x in r[1..] ==> x.co != r[0].co) && UniqueReaders(r[1..])
  }

  /** A waiter belongs to a coroutine that is parked where the waiter says; one that
      a select left behind may already have been woken. */
  ghost predicate WriterOk(s: State, ch: nat, x: Writer) {
    if x.co.None? then !x.select
    else
      var y := Of(s, x.co.value);
      if x.select then y.pc.Parked? && Push(ch, x.ele) in y.pc.cases && (y.status.Waiting? || y.status.Ready?)
      else y.pc == PushWait(ch, x.ele) && y.status.Waiting?
  }

  ghost predicate ReaderOk(s: State, ch: nat, x: Reader) {
    var y := Of(s, x.co);
    if x.select then y.pc.Parked? && Pop(ch) in y.pc.cases && (y.status.Waiting? || y.status.Ready?)
    else y.pc == PopWait(ch, None) && y.status.Waiting?
  }

  /** A channel by itself: the ring in bounds, no coroutine waiting twice, and no
      waiters once it is closed. */
  ghost predicate Tidy(c: Channel) {
    |c.ring| <= c.cap && UniqueWriters(c.w) && UniqueReaders(c.r) && (c.closed ==> c.w == [] && c.r == [])
  }

  ghost predicate NodesOk(s: State, ch: nat)
    requires ch < |s.chans|
  {
    && (forall x :: x in s.chans[ch].w ==> WriterOk(s, ch, x))
    && (forall x :: x in s.chans[ch].r ==> ReaderOk(s, ch, x))
  }

  /** Nothing is lost, nothing delivered twice, as long as the channel is open. */
  ghost predicate Conserved(log: seq<Event>, ch: nat, c: Channel) {
    !c.closed ==> multiset(Puts(log, ch)) == multiset(Takes(log, ch)) + Held(c)
  }

  ghost predicate CasePosted(s: State, k: Co, x: Case) {
    x.ch < |s.chans| && match x
    case Push(ch, ele) => Writer(Some(k), ele, true) in s.chans[ch].w
    case Pop(ch) => Reader(k, true) in s.chans[ch].r
  }

  /** A coroutine that waits has its waiters posted. */
  ghost predicate Posted(s: State, k: Co) {
    match Of(s, k).pc
    case PushWait(ch, v) => ch < |s.chans| && Writer(Some(k), v, false) in s.chans[ch].w
    case PopWait(ch, got) => ch < |s.chans| && got.None? && Reader(k, false) in s.chans[ch].r
    case Parked(cases) => forall x :: x in cases ==> CasePosted(s, k, x)
    case _ => false
  }

  /** Every coroutine is in the place that its status says, and only there. */
  ghost predicate Placed(s: State, k: Co) {
    var x := Of(s, k);
    match x.status
    case Starting => s.running != Some(k) && k !in s.later && x.pc.User?
    case Ready => s.running != Some(k) && (k in s.rq <==> k !in s.later) && !x.pc.Choosing?
                  && (x.pc.PopWait? && x.pc.got.None? ==> x.pc.ch < |s.chans| && s.chans[x.pc.ch].closed)
    case Running => s.running == Some(k) && k !in s.rq && k !in s.later && (x.pc.User? || x.pc.Choosing?)
    case Waiting => s.running != Some(k) && k !in s.rq && k !in s.later && Posted(s, k)
    case Terminated => s.running != Some(k) && k !in s.rq && k !in s.later
  }

  /** What the operation in progress, or the last one, has done so far. */
  ghost predicate Accounted(s: State, k: Co) {
    var x := Of(s, k);
    && x.since <= |s.log|
    && Did(s.log, x.since, k) ==
       match x.pc
       case User => Effects(k, x.result)
       case PushWait(ch, v) => [Event(Some(k), true, ch, v)]
       case PopWait(ch, got) => if got.Some? then [Event(Some(k), false, ch, got.value)] else []
       case _ => []
  }

  ghost predicate CasesOk(s: State, k: Co) {
    var x := Of(s, k);
    x.pc.Choosing? || x.pc.Parked? ==> DistinctCases(s, x.pc.cases)
  }

  ghost predicate QueuesOk(s: State) {
    && Distinct(s.rq) && Distinct(s.later)
    && (forall k :: k in s.rq ==> k < |s.cos| && (s.cos[k].status.Ready? || s.cos[k].status.Starting?))
    && (forall k :: k in s.later ==> k < |s.cos| && s.cos[k].status.Ready?)
    && (s.running.Some? ==> s.running.value < |s.cos| && s.cos[s.running.value].status.Running?)
  }

  /** Waiters, statuses and queues agree. */
  ghost predicate Net(s: State) {
    && QueuesOk(s)
    && (forall ch :: 0 <= ch < |s.chans| ==> Tidy(s.chans[ch]))
    && (forall ch :: 0 <= ch < |s.chans| ==> NodesOk(s, ch))
    && (forall k :: 0 <= k < |s.cos| ==> Placed(s, k))
    && (forall k :: 0 <= k < |s.cos| ==> CasesOk(s, k))
  }

  ghost predicate Book(s: State) {
    forall ch :: 0 <= ch < |s.chans| ==> Conserved(s.log, ch, s.chans[ch])
  }

  ghost predicate Inv(s: State) {
    Net(s) && Book(s) && forall k :: 0 <= k < |s.cos| ==> Accounted(s, k)
  }
}
