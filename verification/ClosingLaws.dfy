/** Closing a channel in module Scheduler: everyone parked there is woken. */
module ClosingLaws {
  import opened Collections
  import opened ChannelSpec
  import Q = ReadyQueue
  import opened Scheduler
  import opened SchedulerLaws
  import opened SchedulerSteps

  lemma {:induction false} StaysStuck(s: State, ks: seq<Co>)
    requires s.stuck
    ensures WakeAll(s, ks).stuck
    decreases |ks|
  {
    if ks != [] { StaysStuck(Wake(s, ks[0]), ks[1..]); }
  }

  ghost predicate QueueAwake(s: State) {
    forall k :: k in s.rq ==> !Of(s, k).status.Waiting?
  }

  /** Waking all of `ks` goes through only if they are different and waiting. */
  lemma {:induction false} WakeAllIs(s: State, ks: seq<Co>)
    requires !s.stuck && !WakeAll(s, ks).stuck && QueueAwake(s)
    requires forall k :: k in ks ==> !Of(s, k).status.Running?
    ensures var s' := WakeAll(s, ks);
      && s' == s.(cos := s'.cos, rq := s'.rq) && |s'.cos| == |s.cos|
      && Distinct(ks) && s'.rq == s.rq + ks
      && (forall k :: k in ks ==> k < |s.cos|)
      && (forall k :: 0 <= k < |s.cos| ==>
            if k in ks then s.cos[k].status.Waiting? && s'.cos[k] == s.cos[k].(status := Ready) else s'.cos[k] == s.cos[k])
    decreases |ks|
  {
    if ks != [] {
      var t := Wake(s, ks[0]);
      if t.stuck { StaysStuck(t, ks[1..]); }
      assert forall k :: k in ks[1..] ==> k in ks;
      WakeAllIs(t, ks[1..]);
      assert ks == [ks[0]] + ks[1..];
      Q.Joined([ks[0]], ks[1..]);
    } else {
      assert s.rq + [] == s.rq;
    }
  }

  lemma {:induction false} WriterCosAre(w: seq<Writer>)
    ensures forall k :: k in WriterCos(w) <==> exists x :: x in w && x.co == Some(k)
  {
    if w != [] {
      WriterCosAre(w[1..]);
      assert w == [w[0]] + w[1..];
    }
  }

  lemma {:induction false} ReaderCosAre(r: seq<Reader>)
    ensures forall k :: k in ReaderCos(r) <==> exists x :: x in r && x.co == k
  {
    if r != [] {
      ReaderCosAre(r[1..]);
      assert r == [r[0]] + r[1..];
    }
  }

  /** Whoever waits on the channel, and only there if it is not in a select. */
  lemma SleeperIs(s: State, ch: nat, k: Co)
    requires Net(s) && ch < |s.chans| && k in Sleepers(s.chans[ch])
    ensures k < |s.cos| && !Of(s, k).status.Running? && !Of(s, k).pc.User? && !Of(s, k).pc.Choosing?
    ensures !Of(s, k).pc.Parked? ==> forall i :: 0 <= i < |s.chans| && i != ch ==> GoneFrom(s.chans[i], k)
    ensures Of(s, k).pc.PopWait? ==> Of(s, k).pc.ch == ch
  {
    WriterCosAre(s.chans[ch].w);
    ReaderCosAre(s.chans[ch].r);
    assert NodesOk(s, ch);
    if k in WriterCos(s.chans[ch].w) {
      var x :| x in s.chans[ch].w && x.co == Some(k);
      assert WriterOk(s, ch, x);
    } else {
      var x :| x in s.chans[ch].r && x.co == k;
      assert ReaderOk(s, ch, x);
    }
    if !Of(s, k).pc.Parked? {
      forall i | 0 <= i < |s.chans| && i != ch ensures GoneFrom(s.chans[i], k) {
        assert NodesOk(s, i);
        forall x | x in s.chans[i].w ensures x.co != Some(k) { assert WriterOk(s, i, x); }
        forall x | x in s.chans[i].r ensures x.co != k { assert ReaderOk(s, i, x); }
      }
    }
  }

  lemma {:induction false} WakeAllGoes(s: State, ks: seq<Co>)
    requires !s.stuck && Distinct(ks) && forall k :: k in ks ==> Of(s, k).status.Waiting?
    ensures !WakeAll(s, ks).stuck
    decreases |ks|
  {
    if ks != [] {
      assert forall k :: k in ks[1..] ==> k in ks && k != ks[0];
      WakeAllGoes(Wake(s, ks[0]), ks[1..]);
    }
  }

  lemma {:induction false} WriterCosDistinct(w: seq<Writer>)
    requires UniqueWriters(w)
    ensures Distinct(WriterCos(w))
  {
    if w != [] {
      WriterCosDistinct(w[1..]);
      WriterCosAre(w[1..]);
      if w[0].co.Some? { Q.Joined([w[0].co.value], WriterCos(w[1..])); }
    }
  }

  lemma {:induction false} ReaderCosDistinct(r: seq<Reader>)
    requires UniqueReaders(r)
    ensures Distinct(ReaderCos(r))
  {
    if r != [] {
      ReaderCosDistinct(r[1..]);
      ReaderCosAre(r[1..]);
      Q.Joined([r[0].co], ReaderCos(r[1..]));
    }
  }

  /** Nobody waits on one channel both to write and to read. */
  lemma SleepersDistinct(s: State, ch: nat)
    requires Net(s) && ch < |s.chans|
    ensures Distinct(Sleepers(s.chans[ch]))
  {
    var c := s.chans[ch];
    assert Tidy(c) && NodesOk(s, ch);
    WriterCosDistinct(c.w);
    ReaderCosDistinct(c.r);
    WriterCosAre(c.w);
    ReaderCosAre(c.r);
    forall k | k in ReaderCos(c.r) ensures k !in WriterCos(c.w) {
      var y :| y in c.r && y.co == k;
      assert ReaderOk(s, ch, y);
      assert CasesOk(s, k) by { SleeperIs(s, ch, k); }
      forall x | x in c.w ensures x.co != Some(k) { assert WriterOk(s, ch, x); }
    }
    Q.Joined(WriterCos(c.w), ReaderCos(c.r));
  }

  lemma SleeperWaits(s: State, ch: nat, k: Co)
    requires Net(s) && ch < |s.chans| && k in Sleepers(s.chans[ch])
    ensures Of(s, k).status.Waiting? || (Of(s, k).status.Ready? && Of(s, k).pc.Parked?)
  {
    WriterCosAre(s.chans[ch].w);
    ReaderCosAre(s.chans[ch].r);
    assert NodesOk(s, ch);
    if k in WriterCos(s.chans[ch].w) {
      var x :| x in s.chans[ch].w && x.co == Some(k);
      assert WriterOk(s, ch, x);
    } else {
      var x :| x in s.chans[ch].r && x.co == k;
      assert ReaderOk(s, ch, x);
    }
  }

  /** Someone who waits on the channel is ready already. */
  ghost predicate SleeperReady(s: State, ch: nat)
    requires ch < |s.chans|
  {
    exists k :: k in Sleepers(s.chans[ch]) && Of(s, k).status.Ready?
  }

  /** A close spins exactly if someone who waits there is ready already, which only
      a coroutine parked in a select can be. */
  lemma CloseSpinsIff(s: State, ch: nat)
    requires Net(s) && !s.stuck && ch < |s.chans|
    ensures Closing(s, ch).stuck <==> SleeperReady(s, ch)
  {
    var ks := Sleepers(s.chans[ch]);
    var t := s.(chans := s.chans[ch := Shut(s.chans[ch])]);
    forall k | k in ks ensures Of(s, k).status.Waiting? || Of(s, k).status.Ready? { SleeperWaits(s, ch, k); }
    if !Closing(s, ch).stuck {
      WakeAllIs(t, ks);
    }
    if !SleeperReady(s, ch) {
      SleepersDistinct(s, ch);
      WakeAllGoes(t, ks);
    }
  }

  /** Closing makes every coroutine parked on the channel ready and queues it. */
  lemma CloseWoke(s: State, ch: nat)
    requires Net(s) && ch < |s.chans| && !s.chans[ch].closed && !s.stuck && !Closing(s, ch).stuck
    ensures Woke(s, Closing(s, ch), ch, Sleepers(s.chans[ch])) && Closing(s, ch).log == s.log
  {
    var c, ks := s.chans[ch], Sleepers(s.chans[ch]);
    var t := s.(chans := s.chans[ch := Shut(c)]);
    var s' := Closing(s, ch);
    assert Tidy(c);
    forall k | k in ks ensures k < |s.cos| && !Of(t, k).status.Running? { SleeperIs(s, ch, k); }
    WakeAllIs(t, ks);
    WriterCosAre(c.w);
    ReaderCosAre(c.r);
    forall k | k in ks && !s.cos[k].pc.Parked? ensures Gone(s', k) {
      SleeperIs(s, ch, k);
    }
    forall k | k in ks && s'.cos[k].pc.PopWait? && s'.cos[k].pc.got.None?
      ensures s'.cos[k].pc.ch < |s'.chans| && s'.chans[s'.cos[k].pc.ch].closed
    {
      SleeperIs(s, ch, k);
    }
  }

  lemma ShutBook(s: State, s': State, ch: nat)
    requires Book(s) && OnlyAt(s, s', ch) && s'.chans[ch].closed && s'.log == s.log
    ensures Book(s')
  {
    forall i | 0 <= i < |s.chans| ensures Conserved(s'.log, i, s'.chans[i]) { assert Conserved(s.log, i, s.chans[i]); }
  }

  /** Waking without delivering changes no account. */
  lemma WokeTale(s: State, s': State, ch: nat, ks: seq<Co>)
    requires Net(s) && Tale(s, []) && Woke(s, s', ch, ks) && s'.log == s.log
    requires forall k :: k in ks && k < |s.cos| == |s'.cos| ==> s'.cos[k].pc == s.cos[k].pc
    ensures Tale(s', [])
  {
    forall k | 0 <= k < |s.cos| ensures TaleOf(s', k, []) {
      assert TaleOf(s, k, []) && Placed(s, k);
    }
  }

  lemma CloseMid(s: State, ch: nat)
    requires Mid(s, []) && ch < |s.chans| && !s.chans[ch].closed && !s.stuck && !Closing(s, ch).stuck
    ensures Mid(Closing(s, ch), []) && Closing(s, ch).running == s.running
  {
    var ks, s' := Sleepers(s.chans[ch]), Closing(s, ch);
    CloseWoke(s, ch);
    CloseKeepsPc(s, ch);
    WokeNet(s, s', ch, ks);
    ShutBook(s, s', ch);
    WokeTale(s, s', ch, ks);
  }

  lemma CloseKeepsPc(s: State, ch: nat)
    requires Net(s) && ch < |s.chans| && !s.stuck && !Closing(s, ch).stuck
    ensures var s' := Closing(s, ch);
      && s'.chans == s.chans[ch := Shut(s.chans[ch])]
      && |s'.cos| == |s.cos| && forall k :: k in Sleepers(s.chans[ch]) && k < |s.cos| ==> s'.cos[k].pc == s.cos[k].pc
  {
    var t := s.(chans := s.chans[ch := Shut(s.chans[ch])]);
    forall k | k in Sleepers(s.chans[ch]) ensures !Of(t, k).status.Running? { SleeperIs(s, ch, k); }
    WakeAllIs(t, Sleepers(s.chans[ch]));
  }

  lemma CloseInv(s: State, ch: nat)
    requires Inv(s) && Enabled(s, CloseOp(ch)) && !CloseStep(s, ch).stuck
    ensures Inv(CloseStep(s, ch))
  {
    if s.chans[ch].closed {
      RefusedInv(s, Closed);
    } else {
      BegunMid(s);
      ShutInv(Begun(s), ch);
    }
  }

  lemma ShutInv(b: State, ch: nat)
    requires Mid(b, []) && ch < |b.chans| && !b.chans[ch].closed && !b.stuck && !Closing(b, ch).stuck
    ensures Inv(Ended(Closing(b, ch), Closed))
  {
    CloseMid(b, ch);
    EndedInv(Closing(b, ch), [], Closed);
  }
}
