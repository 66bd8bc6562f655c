/** What a polled future returns decides what is logged and what becomes of its task. */
module Outcomes {
  import opened WakeModel
  import opened ReactorModel
  import opened ExecLog
  import opened ExecModel
  import opened ExecInvariant
  import opened TickGrammar
  import opened WakeServed
  import opened Injection
  import opened TimerRegistration

  /** From `from` on, every poll of a future logs Ready exactly when the future was. */
  ghost predicate TruthfulFrom(env: Env, l: Log, from: nat)
  {
    forall i :: from <= i < |l| && RealPoll(l, i) ==> (l[i].outcome == Ready <==> env(i).ready)
  }

  lemma TruthfulThrough(env: Env, l: Log, l': Log, from: nat)
    requires l <= l' && TruthfulFrom(env, l, from) && TruthfulFrom(env, l', |l|)
    ensures TruthfulFrom(env, l', from)
  {
    forall i | from <= i < |l'| && RealPoll(l', i)
      ensures l'[i].outcome == Ready <==> env(i).ready
    {
      if i < |l| {
        assert l'[i] == l[i];
        assert RealPoll(l, i);
      }
    }
  }

  lemma NoPollsTruthful(env: Env, l: Log, from: nat)
    requires forall i :: from <= i < |l| ==> !l[i].PollTask?
    ensures TruthfulFrom(env, l, from)
  {
  }

  // ---- one poll ----

  /**
   One poll: a task in the slab stays there exactly when its future was not ready, every
   other task is left alone, and the logged outcome tells the three cases apart.
   */
  lemma PollKeepsUnfinished(env: Env, s: Exec)
    requires Inv(s) && s.queue != []
    ensures
      var t, s', ready := s.queue[0], Polled(env, s), env(|s.log|).ready;
      && (t in s'.slab <==> t in s.slab && !ready)
      && (forall x :: x != t ==> (x in s'.slab <==> x in s.slab))
      && |s'.log| == |s.log| + 1
      && s'.log[|s.log|] == PollTask(t, if t !in s.slab then Invalid else if ready then Ready else Pending)
  {
    hide Recorded, Consistent, NoneLost, AllAffected;
    var t := s.queue[0];
    assert s.queue == [t] + s.queue[1..];
    HeadTaken(s.wakes, t, s.queue[1..], s.ledger);
    var c := s.(queue := s.queue[1..], wakes := Cleared(s.wakes, t), slab := s.slab - {t});
    AllAffectedKeeps(c, env(|s.log|).effects);
  }

  lemma PolledTruthful(env: Env, s: Exec)
    requires Inv(s) && s.queue != []
    ensures TruthfulFrom(env, Polled(env, s).log, |s.log|)
  {
    hide Inv, Polled;
    PollKeepsUnfinished(env, s);
  }

  // ---- loops, ticks and runs ----

  lemma {:induction false} PollLoopTruthful(env: Env, budget: nat, s: Exec, count: nat)
    requires Inv(s)
    ensures TruthfulFrom(env, PollLoop(env, budget, s, count).s.log, |s.log|)
    decreases budget - count
  {
    hide Inv, Refilled, Polled, TruthfulFrom;
    var f := PollLoop(env, budget, s, count).s;
    if count >= budget {
      NoPollsTruthful(env, s.log, |s.log|);
    } else {
      RefilledLog(env, s);
      RefilledKeeps(env, s);
      var r := Refilled(env, s);
      NoPollsTruthful(env, r.log, |s.log|);
      if r.queue != [] {
        var p := Polled(env, r);
        PolledKeeps(env, r);
        PolledTruthful(env, r);
        TruthfulThrough(env, r.log, p.log, |s.log|);
        PollLoopKeeps(env, budget, p, count + 1);
        PollLoopTruthful(env, budget, p, count + 1);
        TruthfulThrough(env, p.log, f.log, |s.log|);
      }
    }
  }

  lemma TickTruthful(env: Env, budget: nat, s: Exec, woken: seq<Wake>)
    requires Inv(s)
    ensures TruthfulFrom(env, Tick(env, budget, s, woken).log, |s.log|)
  {
    hide Inv, Opened, PollLoop, ParkedOnce, Parked, FireClock, TruthfulFrom;
    var o, r, p := Opened(env, s), FirstLoop(env, budget, s), ThroughPark(env, budget, s, woken);
    var f, s' := PollLoop(env, budget, p, r.count).s, Tick(env, budget, s, woken);
    OpenedKeeps(env, s);
    OpenedShapeOnly(env, s);
    NoPollsTruthful(env, o.log, |s.log|);
    PollLoopKeeps(env, budget, o, 0);
    PollLoopTruthful(env, budget, o, 0);
    TruthfulThrough(env, o.log, r.s.log, |s.log|);
    ParkedKeeps(env, r.s, woken);
    ParkShape(env, r.s, woken);
    NoPollsTruthful(env, p.log, |r.s.log|);
    TruthfulThrough(env, r.s.log, p.log, |s.log|);
    PollLoopKeeps(env, budget, p, r.count);
    PollLoopTruthful(env, budget, p, r.count);
    TruthfulThrough(env, p.log, f.log, |s.log|);
    NoPollsTruthful(env, s'.log, |f.log|);
    TruthfulThrough(env, f.log, s'.log, |s.log|);
  }

  /** On every run each poll of a future logs Ready if it was ready, and Pending if it was not. */
  lemma {:induction false} RunTruthful(env: Env, budget: nat, s: Exec, fires: seq<seq<Wake>>)
    requires Inv(s)
    ensures TruthfulFrom(env, Run(env, budget, s, fires).log, |s.log|)
  {
    hide Inv, Tick, TruthfulFrom;
    if fires == [] {
      NoPollsTruthful(env, s.log, |s.log|);
    } else {
      var m := |fires| - 1;
      var r := Run(env, budget, s, fires[..m]);
      RunKeeps(env, budget, s, fires[..m]);
      TickKeeps(env, budget, r, fires[m]);
      RunTruthful(env, budget, s, fires[..m]);
      TickTruthful(env, budget, r, fires[m]);
      TruthfulThrough(env, r.log, Tick(env, budget, r, fires[m]).log, |s.log|);
    }
  }

  // ---- completion, in terms of the futures ----

  /** Before log position `j` a poll of `t` found its future ready. */
  ghost predicate FinishedBy(env: Env, l: Log, j: nat, t: nat)
    requires j <= |l|
  {
    exists i :: 0 <= i < j && RealPoll(l, i) && l[i].task == t && env(i).ready
  }

  lemma {:induction false} CompletedIsFinished(env: Env, l: Log, j: nat, t: nat)
    requires j <= |l| && TruthfulFrom(env, l, 0)
    ensures t in Completed(l[..j]) <==> FinishedBy(env, l, j, t)
  {
    if j > 0 {
      CompletedIsFinished(env, l, j - 1, t);
      assert l[..j][..j - 1] == l[..j - 1];
      assert RealPoll(l, j - 1) ==> (l[j - 1].outcome == Ready <==> env(j - 1).ready);
      if FinishedBy(env, l, j - 1, t) {
        var i :| 0 <= i < j - 1 && RealPoll(l, i) && l[i].task == t && env(i).ready;
        assert FinishedBy(env, l, j, t);
      }
    }
  }

  /**
   On every run a poll is Invalid exactly when an earlier poll of the same task found its
   future ready; any other poll is Ready or Pending as its future was.
   */
  lemma OutcomesByFutures(env: Env, budget: nat, fires: seq<seq<Wake>>, i: nat)
    requires i < |Run(env, budget, IDLE, fires).log| && Run(env, budget, IDLE, fires).log[i].PollTask?
    ensures
      var l := Run(env, budget, IDLE, fires).log;
      && (l[i].outcome == Invalid <==> FinishedBy(env, l, i, l[i].task))
      && (l[i].outcome != Invalid ==> (l[i].outcome == Ready <==> env(i).ready))
  {
    hide Inv, Run, FinishedBy;
    IdleInv();
    RunKeeps(env, budget, IDLE, fires);
    RunTruthful(env, budget, IDLE, fires);
    var s := Run(env, budget, IDLE, fires);
    PollsOkOf(s);
    PollOkAt(s.log, i);
    CompletedIsFinished(env, s.log, i, s.log[i].task);
    assert s.log[i].outcome != Invalid ==> RealPoll(s.log, i);
  }

  /** In every reachable state the slab holds exactly the delivered tasks whose future was never ready. */
  lemma SlabByFutures(env: Env, budget: nat, fires: seq<seq<Wake>>, t: nat)
    ensures
      var s := Run(env, budget, IDLE, fires);
      t in s.slab <==> t in Delivered(s.log) && !FinishedBy(env, s.log, |s.log|, t)
  {
    hide Inv, Run, FinishedBy;
    IdleInv();
    RunTruthful(env, budget, IDLE, fires);
    SlabIsUnfinished(env, budget, fires, t);
    var s := Run(env, budget, IDLE, fires);
    assert s.log[..|s.log|] == s.log;
    CompletedIsFinished(env, s.log, |s.log|, t);
  }

  /**
   Of every poll of every run, taken in state `x`: if the future was ready its task leaves
   the slab with this poll and every later poll of it is Invalid; if it was not, the task
   is in the slab right after the poll.
   */
  lemma ReadyEndsItsTask(env: Env, budget: nat, fires: seq<seq<Wake>>, i: nat) returns (n: nat)
    requires RealPoll(Run(env, budget, IDLE, fires).log, i)
    ensures n < |fires|
    ensures
      var l := Run(env, budget, IDLE, fires).log;
      var x := PollIn(env, budget, Run(env, budget, IDLE, fires[..n]), fires[n], i);
      && TakesPoll(x, l, i) && Polled(env, x).log == l[..i + 1]
      && (l[i].task in Polled(env, x).slab <==> !env(i).ready)
      && (env(i).ready ==> forall j :: i < j < |l| && l[j].PollTask? && l[j].task == l[i].task ==>
           l[j].outcome == Invalid)
  {
    hide Inv, Run, Tick, PollIn, FinishedBy, Polled;
    IdleInv();
    n := TickOf(env, budget, IDLE, fires, i);
    RunIsTick(env, budget, IDLE, fires, n);
    var l := Run(env, budget, IDLE, fires).log;
    var r, r' := Run(env, budget, IDLE, fires[..n]), Run(env, budget, IDLE, fires[..n + 1]);
    TickPollIs(env, budget, r, fires[n], i);
    var x := PollIn(env, budget, r, fires[n], i);
    assert r'.log[..i] == l[..i];
    PollKeepsUnfinished(env, x);
    PolledKeeps(env, x);
    assert Polled(env, x).log == l[..i + 1] by {
      assert Polled(env, x).log <= l;
    }
    forall j | i < j < |l| && l[j].PollTask? && l[j].task == l[i].task && env(i).ready
      ensures l[j].outcome == Invalid
    {
      OutcomesByFutures(env, budget, fires, j);
      assert FinishedBy(env, l, j, l[i].task) by { FinishedAt(env, l, i, j); }
    }
  }

  lemma FinishedAt(env: Env, l: Log, i: nat, j: nat)
    requires i < j <= |l| && RealPoll(l, i) && env(i).ready
    ensures FinishedBy(env, l, j, l[i].task)
  {
  }
}
