/** When a park may sleep in the OS poll, and what then waits. */
module ParkSleep {
  import opened Options
  import opened Seqs
  import opened WakeModel
  import opened ReactorModel
  import opened ExecLog
  import opened ExecModel
  import opened ExecInvariant
  import opened Injection

  /** Nothing came from the executor's own thread. */
  predicate ForeignOnly(arrivals: seq<Arrival>)
  {
    forall i :: 0 <= i < |arrivals| ==> arrivals[i].Send? || !arrivals[i].onExecutor
  }

  predicate AllEmpty(s: Exec)
  {
    && s.queue == [] && s.wakes.reactorReady == [] && s.wakes.taskReady == []
    && s.wakes.deferred == [] && s.wakes.cross == []
  }

  lemma {:induction false} ForeignLeavesQueues(s: Exec, arrivals: seq<Arrival>)
    requires ForeignOnly(arrivals)
    ensures
      var w, w' := s.wakes, AllArrived(s, arrivals).wakes;
      && w'.reactorReady == w.reactorReady && w'.taskReady == w.taskReady
      && w'.deferred == w.deferred && w'.yielded == w.yielded
    ensures AllArrived(s, arrivals).queue == s.queue
  {
    if arrivals != [] {
      ForeignLeavesQueues(s, arrivals[..|arrivals| - 1]);
    }
  }

  /**
   The park gives the OS poll time to sleep exactly when, after foreign wakes were drained,
   every queue is empty and the main future did not yield.
   */
  lemma SleepsExactlyWhenIdle(env: Env, s: Exec)
    requires Inv(s) && ForeignOnly(env(|s.log|).before) && ForeignOnly(env(|s.log|).early)
    ensures RequiresTimeout(env, s) <==> !s.wakes.yielded && AllEmpty(Prepared(env, s))
  {
    hide Consistent, NoneLost, Recorded, CrossDrained, AllArrived;
    ForeignLeavesQueues(s, env(|s.log|).before);
    var b := AtReset(env, s);
    ForeignLeavesQueues(b.(wakes := b.wakes.(interrupted := false)), env(|s.log|).early);
    ListeningKeeps(env, s);
    var a := Listening(env, s);
    CrossDrainedKeeps(a.wakes, a.queue, a.ledger);
  }

  // ---- the interrupt ----

  /** A signal was sent for whatever set the flag. */
  predicate Heard(w: Wakes)
  {
    w.interrupted ==> w.signalled
  }

  lemma {:induction false} ArrivedHeard(s: Exec, arrivals: seq<Arrival>)
    requires Heard(s.wakes) && ForeignOnly(arrivals)
    ensures
      var w, w' := s.wakes, AllArrived(s, arrivals).wakes;
      && Heard(w')
      && (w'.signalled <==> w.signalled || (arrivals != [] && !w.interrupted))
      && (w'.interrupted <==> w.interrupted || arrivals != [])
  {
    if arrivals != [] {
      ArrivedHeard(s, arrivals[..|arrivals| - 1]);
    }
  }

  /** From the reset on, the flag says whether anything arrived, and the signal went out. */
  lemma ResetThenHeard(env: Env, s: Exec)
    requires Calm(s) && ForeignOnly(env(|s.log|).early)
    ensures
      var b, p := AtReset(env, s), Prepared(env, s);
      && Heard(p.wakes)
      && (p.wakes.interrupted <==> env(|s.log|).early != [])
      && (p.wakes.signalled <==> b.wakes.signalled || env(|s.log|).early != [])
  {
    hide CrossDrained, NoneLost, Consistent, AllArrived;
    AllArrivedKeeps(s, env(|s.log|).before);
    var b := AtReset(env, s);
    ArrivedHeard(b.(wakes := b.wakes.(interrupted := false)), env(|s.log|).early);
    ListeningKeeps(env, s);
    var a := Listening(env, s);
    CrossDrainedKeeps(a.wakes, a.queue, a.ledger);
  }

  /** Every foreign wake or spawn after the flag was reset cuts the OS poll short. */
  lemma ForeignArrivalInterrupts(env: Env, s: Exec)
    requires Calm(s) && ForeignOnly(env(|s.log|).early) && ForeignOnly(env(|s.log|).during)
    requires env(|s.log|).early != [] || env(|s.log|).during != []
    ensures Sleeping(env, s).wakes.signalled
  {
    hide Prepared, NoneLost, Consistent, Flushed, AtReset;
    ResetThenHeard(env, s);
    var p := Prepared(env, s);
    ArrivedHeard(p.(timers := Flushed(p.timers)), env(|s.log|).during);
  }

  /** The flag of an arrival since the reset outlives the poll that took its signal, and only then. */
  lemma FlagOutlivesPoll(env: Env, s: Exec)
    requires Calm(s) && ForeignOnly(env(|s.log|).early) && ForeignOnly(env(|s.log|).during)
    ensures
      var w := AboutToFire(env, s).wakes;
      && !w.signalled
      && (w.interrupted <==> env(|s.log|).early != [] || env(|s.log|).during != [])
  {
    hide Prepared, NoneLost, Consistent, Flushed, AtReset;
    ResetThenHeard(env, s);
    var p := Prepared(env, s);
    ArrivedHeard(p.(timers := Flushed(p.timers)), env(|s.log|).during);
  }

  // ---- the injection channel ----

  /** When no id was sent twice, a poll loop with budget left has emptied the channel. */
  lemma {:induction false} SpareBudgetEmptiesChannel(env: Env, budget: nat, s: Exec, count: nat)
    requires Inv(s) && InOrder(s)
    requires Distinct(PollLoop(env, budget, s, count).s.sent) && PollLoop(env, budget, s, count).count < budget
    ensures PollLoop(env, budget, s, count).s.channel == []
    decreases budget - count
  {
    hide Inv, InOrder, Refilled, Polled, Distinct;
    RefilledKeeps(env, s);
    RefilledInOrder(env, s);
    var r := Refilled(env, s);
    if r.queue != [] {
      PolledKeeps(env, r);
      PolledInOrder(env, r);
      SpareBudgetEmptiesChannel(env, budget, Polled(env, r), count + 1);
    } else {
      EmptyRefill(env, s);
    }
  }

  lemma EmptyRefill(env: Env, s: Exec)
    requires Inv(s) && InOrder(s) && Refilled(env, s).queue == [] && Distinct(Refilled(env, s).sent)
    ensures Refilled(env, s).channel == []
  {
    hide Inv, InOrder, Kept, CrossDrained, ReactorDrained;
    var r := ReactorDrained(env, s);
    ReactorInOrder(env, s);
    ReactorDrainedKeeps(env, s);
    var w := CrossDrained(r.wakes);
    DrainInOrder(r, w.(taskReady := []), TaskWake, w.taskReady);
    TaskDrainedKeeps(r);
    HeadIsNew(TaskDrained(r));
  }

  lemma HeadIsNew(s: Exec)
    requires Inv(s) && InOrder(s) && Distinct(s.sent)
    ensures s.channel != [] ==> s.channel[0] !in s.ledger
  {
    hide NoneLost, Consistent, FirstSeen;
    var n := |s.sent| - |s.channel|;
    FirstSeenMembers(s.sent[..n]);
    if s.channel != [] {
      assert s.channel[0] == s.sent[n];
      assert forall i :: 0 <= i < n ==> s.sent[..n][i] == s.sent[i] != s.sent[n];
    }
  }
}
