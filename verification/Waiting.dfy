/** Bounded waiting: a queued task is polled after as many ticks as its index allows. */
module BoundedWaiting {
  import opened ReactorModel
  import opened ExecLog
  import opened ExecModel
  import opened ExecInvariant

  /** Task `t` is polled somewhere in the log from position `from` on. */
  ghost predicate PolledSince(l: Log, from: nat, t: nat)
  {
    exists i :: from <= i < |l| && l[i].PollTask? && l[i].task == t
  }

  lemma PolledLater(l: Log, l': Log, from: nat, from': nat, t: nat)
    requires l <= l' && from' <= from && PolledSince(l, from, t)
    ensures PolledSince(l', from', t)
  {
    var i :| from <= i < |l| && l[i].PollTask? && l[i].task == t;
    assert l'[i] == l[i];
  }

  /** One poll loop serves index `p`, or uses its whole remaining budget on indices before it. */
  lemma {:induction false} LoopServes(env: Env, budget: nat, s: Exec, count: nat, p: nat)
    requires Inv(s) && p < |s.queue| && count <= budget
    ensures
      var r := PollLoop(env, budget, s, count);
      if count + p < budget then PolledSince(r.s.log, |s.log|, s.queue[p])
      else r.count == budget && p - (budget - count) < |r.s.queue| && r.s.queue[p - (budget - count)] == s.queue[p]
    decreases budget - count
  {
    hide Inv, Polled;
    if count < budget {
      assert Refilled(env, s) == s;
      PolledKeeps(env, s);
      var s' := Polled(env, s);
      PollLoopKeeps(env, budget, s', count + 1);
      if p == 0 {
        assert PolledSince(s'.log, |s.log|, s.queue[0]);
        PolledLater(s'.log, PollLoop(env, budget, s', count + 1).s.log, |s.log|, |s.log|, s.queue[0]);
      } else {
        LoopServes(env, budget, s', count + 1, p - 1);
        if count + p < budget {
          var r := PollLoop(env, budget, s', count + 1);
          PolledLater(r.s.log, r.s.log, |s'.log|, |s.log|, s.queue[p]);
        }
      }
    }
  }

  /** One tick serves index `p` of its queue, or moves it forward by the whole budget. */
  lemma TickServes(env: Env, budget: nat, s: Exec, woken: seq<Wake>, p: nat)
    requires Inv(s) && p < |s.queue|
    ensures
      var s' := Tick(env, budget, s, woken);
      if p < budget then PolledSince(s'.log, |s.log|, s.queue[p])
      else p - budget < |s'.queue| && s'.queue[p - budget] == s.queue[p]
  {
    hide Inv, Opened, PollLoop, ParkedOnce, Parked, FireClock;
    var o := Opened(env, s);
    OpenedKeeps(env, s);
    LoopServes(env, budget, o, 0, p);
    var r := FirstLoop(env, budget, s);
    PollLoopKeeps(env, budget, o, 0);
    TickKeeps(env, budget, s, woken);
    ParkedKeeps(env, r.s, woken);
    if p < budget {
      var th := ThroughPark(env, budget, s, woken);
      PolledLater(r.s.log, Tick(env, budget, s, woken).log, |o.log|, |s.log|, s.queue[p]);
    } else {
      LoopSpent(env, budget, ThroughPark(env, budget, s, woken), r.count);
    }
  }

  lemma LoopSpent(env: Env, budget: nat, s: Exec, count: nat)
    requires count >= budget
    ensures PollLoop(env, budget, s, count) == Loop(s, count)
  {
  }

  lemma {:induction false} RunSplit(env: Env, budget: nat, s: Exec, fires: seq<seq<Wake>>, k: nat)
    requires k <= |fires|
    ensures Run(env, budget, Run(env, budget, s, fires[..k]), fires[k..]) == Run(env, budget, s, fires)
    decreases |fires|
  {
    hide Tick;
    var m := |fires| - 1;
    if k < |fires| {
      RunSplit(env, budget, s, fires[..m], k);
      assert fires[..m][..k] == fires[..k];
      assert fires[k..][..m - k] == fires[..m][k..];
      assert fires[k..][m - k] == fires[m];
    } else {
      assert fires[..k] == fires && fires[k..] == [];
    }
  }

  lemma AfterFirstTick(env: Env, budget: nat, s: Exec, fires: seq<seq<Wake>>)
    requires Inv(s) && fires != []
    ensures
      var s1 := Tick(env, budget, s, fires[0]);
      && Inv(s1) && Run(env, budget, s1, fires[1..]) == Run(env, budget, s, fires)
      && s.log <= s1.log && s1.log <= Run(env, budget, s, fires).log
  {
    hide Inv, Tick;
    assert fires[..1] == [fires[0]] && [fires[0]][..0] == [];
    assert Run(env, budget, s, []) == s;
    RunSplit(env, budget, s, fires, 1);
    TickKeeps(env, budget, s, fires[0]);
    RunKeeps(env, budget, Tick(env, budget, s, fires[0]), fires[1..]);
  }

  /** Ticks whose budgets together exceed index `p` poll the task that stood there. */
  lemma {:induction false} PolledWithinBudgets(env: Env, budget: nat, s: Exec, fires: seq<seq<Wake>>, p: nat)
    requires Inv(s) && p < |s.queue| && p < |fires| * budget
    ensures PolledSince(Run(env, budget, s, fires).log, |s.log|, s.queue[p])
    decreases p
  {
    hide Inv, Tick, Run;
    TickServes(env, budget, s, fires[0], p);
    AfterFirstTick(env, budget, s, fires);
    var s1, l := Tick(env, budget, s, fires[0]), Run(env, budget, s, fires).log;
    if p < budget {
      PolledLater(s1.log, l, |s.log|, |s.log|, s.queue[p]);
    } else {
      assert |fires[1..]| * budget == |fires| * budget - budget;
      PolledWithinBudgets(env, budget, s1, fires[1..], p - budget);
      PolledLater(l, l, |s1.log|, |s.log|, s.queue[p]);
    }
  }

  /**
   Bounded waiting: whatever is woken, deferred or spawned meanwhile, the task at index `p`
   of the queue when a tick begins is polled within `p / budget + 1` ticks.
   */
  lemma PolledWithinBound(env: Env, budget: nat, s: Exec, fires: seq<seq<Wake>>, p: nat)
    requires Inv(s) && 1 <= budget && p < |s.queue| && |fires| > p / budget
    ensures PolledSince(Run(env, budget, s, fires).log, |s.log|, s.queue[p])
  {
    hide Inv, Run;
    BudgetsCover(p, budget, |fires|);
    PolledWithinBudgets(env, budget, s, fires, p);
  }

  lemma {:induction false} MulStep(x: nat, y: nat, n: nat)
    requires x > y
    ensures x * n >= y * n + n
  {
    assert x * n == (x - 1) * n + n;
    if x > y + 1 {
      MulStep(x - 1, y, n);
    }
  }

  /** More than `p / budget` budgets cover index `p`. */
  lemma BudgetsCover(p: nat, budget: nat, ticks: nat)
    requires 1 <= budget && ticks > p / budget
    ensures p < ticks * budget
  {
    MulStep(ticks, p / budget, budget);
  }
}
