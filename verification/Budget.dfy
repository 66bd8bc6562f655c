/** A tick's two poll loops share one budget, and stop short of it only when nothing is left to do. */
module Budget {
  import opened Options
  import opened ReactorModel
  import opened ExecLog
  import opened ExecModel
  import opened ExecInvariant
  import opened TickGrammar

  /** The number of polls logged. */
  function PollCount(l: Log): nat
  {
    if l == [] then 0 else PollCount(l[..|l| - 1]) + if l[|l| - 1].PollTask? then 1 else 0
  }

  lemma CountNext(l: Log, e: Event)
    ensures PollCount(l + [e]) == PollCount(l) + if e.PollTask? then 1 else 0
  {
    assert (l + [e])[..|l|] == l;
  }

  lemma {:induction false} NoPollsCounted(l: Log, l': Log)
    requires l <= l' && forall i :: |l| <= i < |l'| ==> !l'[i].PollTask?
    ensures PollCount(l') == PollCount(l)
    decreases |l'|
  {
    if |l| < |l'| {
      NoPollsCounted(l, l'[..|l'| - 1]);
    } else {
      assert l == l';
    }
  }

  /** Nothing to do: every queue is empty and the last receive found no task. */
  ghost predicate Idle(s: Exec)
  {
    && s.queue == [] && s.wakes.reactorReady == [] && s.wakes.taskReady == [] && s.wakes.cross == []
    && s.log != [] && s.log[|s.log| - 1] == PopInjection(None)
  }

  lemma RefilledIdle(env: Env, s: Exec)
    requires Inv(s) && Refilled(env, s).queue == []
    ensures Idle(Refilled(env, s))
  {
    hide Inv, ReactorDrained, TaskDrained;
    var r := ReactorDrained(env, s);
    ReactorDrainedKeeps(env, s);
    TaskDrainedKeeps(r);
    AdmittedKeeps(TaskDrained(r));
    AdmittedPlain(TaskDrained(r));
  }

  /** A poll loop polls as often as its counter says, and stops before the budget is used up only when idle. */
  lemma {:induction false} LoopSpends(env: Env, budget: nat, s: Exec, count: nat)
    requires Inv(s) && count <= budget
    ensures
      var r := PollLoop(env, budget, s, count);
      && count <= r.count <= budget
      && PollCount(r.s.log) == PollCount(s.log) + r.count - count
      && (r.count < budget ==> Idle(r.s))
    decreases budget - count
  {
    hide Inv, Refilled, Polled, Idle;
    if count < budget {
      RefilledLog(env, s);
      RefilledKeeps(env, s);
      var r := Refilled(env, s);
      NoPollsCounted(s.log, r.log);
      if r.queue == [] {
        RefilledIdle(env, s);
      } else {
        PolledKeeps(env, r);
        var p := Polled(env, r);
        assert p.log == r.log + [p.log[|r.log|]];
        CountNext(r.log, p.log[|r.log|]);
        LoopSpends(env, budget, p, count + 1);
      }
    }
  }

  /**
   One tick polls at most `budget` times, and fewer times only if it ends idle. The same
   holds of its first loop and the park: with budget left nothing runnable is left behind,
   and what the park makes runnable is polled in the same tick as far as the budget goes.
   */
  lemma TickSpends(env: Env, budget: nat, s: Exec, woken: seq<Wake>)
    requires Inv(s)
    ensures
      var first, s' := FirstLoop(env, budget, s), Tick(env, budget, s, woken);
      var atPark, atEnd := PollCount(first.s.log) - PollCount(s.log), PollCount(s'.log) - PollCount(s.log);
      && 0 <= atPark <= atEnd <= budget
      && (atPark < budget ==> Idle(first.s))
      && (atEnd < budget ==>
           && s'.queue == [] && s'.wakes.reactorReady == [] && s'.wakes.taskReady == [] && s'.wakes.cross == []
           && |s'.log| >= 2 && s'.log[|s'.log| - 2] == PopInjection(None))
  {
    hide Inv, Opened, PollLoop, ParkedOnce, Parked, FireClock;
    var o, first, p := Opened(env, s), FirstLoop(env, budget, s), ThroughPark(env, budget, s, woken);
    OpenedKeeps(env, s);
    OpenedShape(env, s);
    NoPollsCounted(s.log, o.log);
    LoopSpends(env, budget, o, 0);
    PollLoopKeeps(env, budget, o, 0);
    ParkedKeeps(env, first.s, woken);
    ParkShape(env, first.s, woken);
    NoPollsCounted(first.s.log, p.log);
    LoopSpends(env, budget, p, first.count);
    CountNext(PollLoop(env, budget, p, first.count).s.log, TickEnd);
  }

  lemma TickSpendsAtMost(env: Env, budget: nat, s: Exec, woken: seq<Wake>)
    requires Inv(s)
    ensures PollCount(Tick(env, budget, s, woken).log) <= PollCount(s.log) + budget
  {
    hide Inv, Tick, FirstLoop, Idle, PollCount;
    TickSpends(env, budget, s, woken);
  }

  lemma OneMoreBudget(n: nat, budget: nat)
    requires 1 <= n
    ensures (n - 1) * budget + budget == n * budget
  {
  }

  /** Over a run of `n` ticks there are at most `n * budget` polls. */
  lemma {:induction false} RunSpends(env: Env, budget: nat, s: Exec, fires: seq<seq<Wake>>)
    requires Inv(s)
    ensures PollCount(Run(env, budget, s, fires).log) <= PollCount(s.log) + |fires| * budget
  {
    hide Inv, Tick, PollCount;
    if fires != [] {
      var m := |fires| - 1;
      RunSpends(env, budget, s, fires[..m]);
      RunKeeps(env, budget, s, fires[..m]);
      TickSpendsAtMost(env, budget, Run(env, budget, s, fires[..m]), fires[m]);
      OneMoreBudget(|fires|, budget);
    }
  }
}
