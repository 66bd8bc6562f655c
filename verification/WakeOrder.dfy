/** Tasks woken one after the other are polled in that order, however far apart queue and poll are. */
module WakeOrder {
  import opened WakeModel
  import opened ReactorModel
  import opened ExecLog
  import opened ExecModel
  import opened ExecInvariant
  import opened BoundedWaiting
  import opened TickGrammar
  import opened WakeDelivery
  import opened WakeServed
  import opened TimerRegistration
  import opened QueueOrder

  // ---- the line before a drain ----

  /** The order in which waiting tasks reach the head: drains append reactor wakes, then task wakes. */
  function Line(s: Exec): seq<nat>
  {
    s.queue + s.wakes.reactorReady + s.wakes.taskReady
  }

  /**
   `a` will be polled before `b`: it stands ahead in the local queue, or ahead in the whole
   line while `b` is notified, so that no further wake can bring `b` forward.
   */
  ghost predicate InLine(s: Exec, a: nat, b: nat)
  {
    || Ahead(s.queue, a, b)
    || (b in s.wakes.notified && b !in s.wakes.deferred && Ahead(Line(s), a, b))
  }

  /** Two tasks the ledger knows; `b` is not the main future, which has no bit. */
  predicate Known(s: Exec, a: nat, b: nat)
  {
    a in s.ledger && b in s.ledger && a != b && b != BLOCK_ON
  }

  lemma InLineIntro(s: Exec, a: nat, b: nat)
    requires b in s.wakes.notified && b !in s.wakes.deferred && Ahead(Line(s), a, b)
    ensures InLine(s, a, b)
  {
  }

  // ---- a wake puts its task at the end ----

  /** A wake of a known task that waits nowhere puts it behind the queue and everybody woken from the same source. */
  lemma WakeGoesBehind(s: Exec, a: nat, k: Waker)
    requires Calm(s) && Known(s, a, k.task) && !k.defer
    requires !Waiting(s.wakes, s.queue, k.task) && k.task !in s.wakes.deferred
    requires a in s.queue || a in s.wakes.reactorReady || (k.source == ByTask && a in s.wakes.taskReady)
    ensures InLine(Arrived(s, WakeBy(k, true)), a, k.task)
  {
    hide Ahead;
    var b, w, w' := k.task, s.wakes, Woken(s.wakes, k, true);
    assert b !in w.notified;
    var s' := Arrived(s, WakeBy(k, true));
    if k.source == ByReactor {
      PresentIsAhead(s.queue + w.reactorReady, a, b);
      AheadConcat(s.queue + w.reactorReady, [b] + w.taskReady, a, b);
      assert Line(s') == s.queue + w.reactorReady + ([b] + w.taskReady);
    } else {
      PresentIsAhead(s.queue + w.reactorReady + w.taskReady, a, b);
      AheadConcat(s.queue + w.reactorReady + w.taskReady, [b], a, b);
      assert Line(s') == s.queue + w.reactorReady + w.taskReady + [b];
    }
    InLineIntro(s', a, b);
  }

  // ---- nothing overtakes, except by deferral ----

  lemma ArrivalKeepsLine(s: Exec, e: Arrival, a: nat, b: nat)
    requires InLine(s, a, b) && b != BLOCK_ON
    ensures InLine(Arrived(s, e), a, b) || DefersTask(e, b)
  {
    hide Ahead;
    var s' := Arrived(s, e);
    if !Ahead(s.queue, a, b) && !DefersTask(e, b) {
      var w := s.wakes;
      if e.WakeBy? && e.onExecutor && !e.waker.defer && e.waker.task != b {
        var x := if GoesThrough(w, e.waker.task) then [e.waker.task] else [];
        if e.waker.source == ByReactor {
          assert Line(s) == (s.queue + w.reactorReady) + w.taskReady;
          assert Line(s') == (s.queue + w.reactorReady) + x + w.taskReady;
          InsertedAhead(s.queue + w.reactorReady, x, w.taskReady, a, b);
        } else {
          AheadConcat(Line(s), x, a, b);
          assert Line(s') == Line(s) + x;
        }
      }
      InLineIntro(s', a, b);
    }
  }

  lemma {:induction false} ArrivalsKeepLine(s: Exec, arrivals: seq<Arrival>, a: nat, b: nat)
    requires InLine(s, a, b) && b != BLOCK_ON && !AnyDefers(arrivals, b)
    ensures InLine(AllArrived(s, arrivals), a, b)
  {
    hide InLine, Arrived, DefersTask;
    if arrivals != [] {
      var m := |arrivals| - 1;
      assert !AnyDefers(arrivals[..m], b) by {
        assert forall j :: 0 <= j < m ==> arrivals[..m][j] == arrivals[j];
      }
      ArrivalsKeepLine(s, arrivals[..m], a, b);
      ArrivalKeepsLine(AllArrived(s, arrivals[..m]), arrivals[m], a, b);
    }
  }

  lemma EffectKeepsLine(s: Exec, e: Effect, a: nat, b: nat)
    requires InLine(s, a, b) && b != BLOCK_ON
    ensures InLine(Affected(s, e), a, b) || EffectDefers(e, b)
  {
    hide Ahead, Registered, Deregistered, Arrived;
    if e.Arrive? {
      ArrivalKeepsLine(s, e.arrival, a, b);
    }
  }

  lemma {:induction false} EffectsKeepLine(s: Exec, effects: seq<Effect>, a: nat, b: nat)
    requires InLine(s, a, b) && b != BLOCK_ON && !AnyEffectDefers(effects, b)
    ensures InLine(AllAffected(s, effects), a, b)
  {
    hide InLine, Affected, EffectDefers;
    if effects != [] {
      var m := |effects| - 1;
      assert !AnyEffectDefers(effects[..m], b) by {
        assert forall j :: 0 <= j < m ==> effects[..m][j] == effects[j];
      }
      EffectsKeepLine(s, effects[..m], a, b);
      EffectKeepsLine(AllAffected(s, effects[..m]), effects[m], a, b);
    }
  }

  lemma {:induction false} FiredKeepLine(s: Exec, woken: seq<Wake>, a: nat, b: nat)
    requires InLine(s, a, b) && b != BLOCK_ON && !FiredDefers(woken, b)
    ensures InLine(s.(wakes := AllWoken(s.wakes, woken)), a, b)
  {
    hide InLine, Woken;
    if woken != [] {
      var m := |woken| - 1;
      assert !FiredDefers(woken[..m], b) by {
        assert forall j :: 0 <= j < m ==> woken[..m][j] == woken[j];
      }
      FiredKeepLine(s, woken[..m], a, b);
      var c := s.(wakes := AllWoken(s.wakes, woken[..m]));
      ArrivalKeepsLine(c, WakeBy(woken[m].waker, true), a, b);
    } else {
      assert s.(wakes := AllWoken(s.wakes, woken)) == s;
    }
  }

  // ---- drains ----

  lemma ReactorTakenKeepsLine(s: Exec, a: nat, b: nat)
    requires InLine(s, a, b) && a in s.ledger
    ensures InLine(ReactorTaken(s), a, b)
  {
    hide Ahead, Kept;
    var w, s' := s.wakes, ReactorTaken(s);
    AheadConcat(s.queue, Kept(w.reactorReady, s.ledger), a, b);
    if !Ahead(s.queue, a, b) {
      DrainedAhead(s.queue, w.reactorReady, w.taskReady, s.ledger, a, b);
      assert Line(s') == s.queue + Kept(w.reactorReady, s.ledger) + w.taskReady;
      InLineIntro(s', a, b);
    }
  }

  /** The foreign wakes pushed as task wakes: they go to the end, and none is `b`. */
  lemma {:induction false} PushedAllKeepsLine(s: Exec, ids: seq<nat>, a: nat, b: nat)
    requires InLine(s, a, b) && b != BLOCK_ON
    ensures InLine(s.(wakes := PushedAll(s.wakes, ids)), a, b)
  {
    hide InLine, PushedTask;
    if ids != [] {
      var m := |ids| - 1;
      PushedAllKeepsLine(s, ids[..m], a, b);
      var c := s.(wakes := PushedAll(s.wakes, ids[..m]));
      ArrivalKeepsLine(c, WakeBy(Waker(ids[m], ByTask, false), true), a, b);
    } else {
      assert s.(wakes := PushedAll(s.wakes, ids)) == s;
    }
  }

  lemma FlagsKeepLine(s: Exec, w: Wakes, a: nat, b: nat)
    requires InLine(s, a, b)
    requires w.reactorReady == s.wakes.reactorReady && w.taskReady == s.wakes.taskReady
    requires w.notified == s.wakes.notified && w.deferred == s.wakes.deferred
    ensures InLine(s.(wakes := w), a, b)
  {
    hide Ahead;
    if !Ahead(s.queue, a, b) {
      assert Line(s.(wakes := w)) == Line(s);
    }
  }

  lemma CrossKeepsLine(s: Exec, a: nat, b: nat)
    requires InLine(s, a, b) && b != BLOCK_ON
    ensures InLine(s.(wakes := CrossDrained(s.wakes)), a, b)
  {
    hide InLine, PushedAll;
    PushedAllKeepsLine(s, s.wakes.cross, a, b);
    FlagsKeepLine(s.(wakes := PushedAll(s.wakes, s.wakes.cross)), CrossDrained(s.wakes), a, b);
  }

  lemma TaskTakenKeepsLine(s: Exec, a: nat, b: nat)
    requires InLine(s, a, b) && a in s.ledger && s.wakes.reactorReady == []
    ensures InLine(Enqueued(s.(wakes := s.wakes.(taskReady := [])), TaskWake, s.wakes.taskReady), a, b)
  {
    hide Ahead, Kept;
    var w, s' := s.wakes, Enqueued(s.(wakes := s.wakes.(taskReady := [])), TaskWake, s.wakes.taskReady);
    AheadConcat(s.queue, Kept(w.taskReady, s.ledger), a, b);
    if !Ahead(s.queue, a, b) {
      assert Line(s) == s.queue + w.taskReady + [];
      DrainedAhead(s.queue, w.taskReady, [], s.ledger, a, b);
      assert Line(s') == s.queue + Kept(w.taskReady, s.ledger) + [];
      InLineIntro(s', a, b);
    }
  }

  lemma TaskDrainedKeepsLine(s: Exec, a: nat, b: nat)
    requires Inv(s) && InLine(s, a, b) && Known(s, a, b) && s.wakes.reactorReady == []
    ensures InLine(TaskDrained(s), a, b)
  {
    hide InLine, CrossDrained, Consistent, Recorded;
    CrossDrainedKeeps(s.wakes, s.queue, s.ledger);
    CrossKeepsLine(s, a, b);
    var c := s.(wakes := CrossDrained(s.wakes));
    TaskTakenKeepsLine(c, a, b);
  }

  lemma ReactorDrainedKeepsLine(env: Env, s: Exec, a: nat, b: nat)
    requires Inv(s) && InLine(s, a, b) && Known(s, a, b) && !AnyDefers(env(|s.log|).before, b)
    ensures InLine(ReactorDrained(env, s), a, b)
  {
    hide InLine, AllArrived, ReactorTaken, AnyDefers, Calm, Recorded;
    AllArrivedKeeps(s, env(|s.log|).before);
    ArrivalsKeepLine(s, env(|s.log|).before, a, b);
    ReactorTakenKeepsLine(AllArrived(s, env(|s.log|).before), a, b);
  }

  /** With both ready queues empty the line is the local queue. */
  lemma LineIsQueue(s: Exec, a: nat, b: nat)
    requires InLine(s, a, b) && s.wakes.reactorReady == [] && s.wakes.taskReady == []
    ensures Ahead(s.queue, a, b)
  {
    assert Line(s) == s.queue;
  }

  /** Once both ready queues were drained, whoever was ahead in line stands ahead in the local queue. */
  lemma DrainedInOrder(env: Env, s: Exec, a: nat, b: nat)
    requires Inv(s) && InLine(s, a, b) && Known(s, a, b) && !AnyDefers(env(|s.log|).before, b)
    ensures Ahead(TaskDrained(ReactorDrained(env, s)).queue, a, b)
  {
    hide Inv, InLine, ReactorDrained, TaskDrained, AnyDefers;
    var r := ReactorDrained(env, s);
    ReactorDrainedKeeps(env, s);
    ReactorDrainedKeepsLine(env, s, a, b);
    TaskDrainedKeeps(r);
    TaskDrainedKeepsLine(r, a, b);
    LineIsQueue(TaskDrained(r), a, b);
  }

  lemma DeferredDrainedKeepsLine(s: Exec, a: nat, b: nat)
    requires InLine(s, a, b)
    ensures InLine(DeferredDrained(s), a, b)
  {
    hide Ahead, Kept;
    var x, s' := Kept(s.wakes.deferred, s.ledger), DeferredDrained(s);
    AheadConcat(s.queue, x, a, b);
    if !Ahead(s.queue, a, b) {
      var rest := s.wakes.reactorReady + s.wakes.taskReady;
      assert Line(s) == s.queue + rest && Line(s') == s.queue + x + rest;
      InsertedAhead(s.queue, x, rest, a, b);
      InLineIntro(s', a, b);
    }
  }

  lemma AdmittedKeepsLine(s: Exec, a: nat, b: nat)
    requires InLine(s, a, b) && b in s.ledger
    ensures InLine(Admitted(s), a, b)
  {
    hide Ahead;
    var x, s' := if Accepts(s).Some? then [Accepts(s).value] else [], Admitted(s);
    assert s'.queue == s.queue + x && b !in x;
    AheadConcat(s.queue, x, a, b);
    if !Ahead(s.queue, a, b) {
      var rest := s.wakes.reactorReady + s.wakes.taskReady;
      assert Line(s) == s.queue + rest && Line(s') == s.queue + x + rest;
      InsertedAhead(s.queue, x, rest, a, b);
      InLineIntro(s', a, b);
    }
  }

  lemma {:induction false} AllPoppedKeepsLine(s: Exec, a: nat, b: nat)
    requires Inv(s) && InLine(s, a, b) && b in s.ledger
    ensures InLine(AllPopped(s), a, b)
    decreases |s.channel|
  {
    hide InLine, Inv;
    AdmittedKeepsLine(s, a, b);
    AdmittedKeeps(s);
    if Accepts(s).Some? {
      AllPoppedKeepsLine(Admitted(s), a, b);
    }
  }

  // ---- what may happen to the pair over the log ----

  /** The event at position `k` defers `b`; deferred tasks enter the queue ahead of woken ones. */
  predicate PutsOff(env: Env, l: Log, k: nat, b: nat)
    requires k < |l|
  {
    Defers(env, l, k, [], b) || (l[k] == TickBegin && AnyEffectDefers(env(k).effects, b))
  }

  ghost predicate PutOffSince(env: Env, l: Log, from: nat, b: nat)
  {
    exists k :: from <= k < |l| && PutsOff(env, l, k, b)
  }

  predicate Polls(l: Log, j: nat, t: nat)
    requires j < |l|
  {
    l[j].PollTask? && l[j].task == t
  }

  /** From `from` on, `b` is polled only after `a` was, or after something deferred `b`. */
  ghost predicate InTurn(env: Env, l: Log, from: nat, a: nat, b: nat)
  {
    forall j :: from <= j < |l| && Polls(l, j, b) ==>
      PolledSince(l[..j], from, a) || PutOffSince(env, l[..j], from, b)
  }

  /** So far in turn, and still in line unless `a` was polled or `b` deferred. */
  ghost predicate Ordered(env: Env, s: Exec, from: nat, a: nat, b: nat)
  {
    && InTurn(env, s.log, from, a, b)
    && (InLine(s, a, b) || PolledSince(s.log, from, a) || PutOffSince(env, s.log, from, b))
  }

  lemma PutOffLater(env: Env, l: Log, l': Log, from: nat, from': nat, b: nat)
    requires l <= l' && from' <= from && PutOffSince(env, l, from, b)
    ensures PutOffSince(env, l', from', b)
  {
    hide Defers, AnyEffectDefers;
    var k :| from <= k < |l| && PutsOff(env, l, k, b);
    CallsPrefix(env, l, l', k, [], b);
    assert PutsOff(env, l', k, b);
  }

  /** A step whose events poll `b` first only if the pair was not in line any more. */
  lemma OrderedGrows(env: Env, s: Exec, s': Exec, from: nat, a: nat, b: nat)
    requires Ordered(env, s, from, a, b) && s.log <= s'.log && from <= |s.log|
    requires forall j :: |s.log| <= j < |s'.log| && Polls(s'.log, j, b) ==> j == |s.log| && !InLine(s, a, b)
    requires InLine(s, a, b) ==>
      InLine(s', a, b) || PolledSince(s'.log, |s.log|, a) || PutOffSince(env, s'.log, |s.log|, b)
    ensures Ordered(env, s', from, a, b)
  {
    hide InLine, PutsOff;
    forall j | from <= j < |s'.log| && Polls(s'.log, j, b)
      ensures PolledSince(s'.log[..j], from, a) || PutOffSince(env, s'.log[..j], from, b)
    {
      if j < |s.log| {
        assert s'.log[..j] == s.log[..j] && Polls(s.log, j, b);
      } else {
        assert s'.log[..j] == s.log;
      }
    }
    if InLine(s, a, b) {
      if PolledSince(s'.log, |s.log|, a) { PolledLater(s'.log, s'.log, |s.log|, from, a); }
      if PutOffSince(env, s'.log, |s.log|, b) { PutOffLater(env, s'.log, s'.log, |s.log|, from, b); }
    } else if PolledSince(s.log, from, a) {
      PolledLater(s.log, s'.log, from, from, a);
    } else {
      PutOffLater(env, s.log, s'.log, from, from, b);
    }
  }

  // ---- phases ----

  lemma RefilledOrdered(env: Env, s: Exec, from: nat, a: nat, b: nat)
    requires Inv(s) && Ordered(env, s, from, a, b) && Known(s, a, b) && from <= |s.log|
    ensures Ordered(env, Refilled(env, s), from, a, b)
  {
    hide Inv, InLine, Refilled, InTurn, AnyDefers;
    RefilledLog(env, s);
    RefilledKeeps(env, s);
    var r := Refilled(env, s);
    if InLine(s, a, b) {
      if s.queue == [] && AnyDefers(env(|s.log|).before, b) {
        RefilledDrains(env, s);
        assert PutsOff(env, r.log, |s.log|, b);
      } else {
        RefilledKeepsLine(env, s, a, b);
      }
    }
    OrderedGrows(env, s, r, from, a, b);
  }

  lemma RefilledDrains(env: Env, s: Exec)
    requires Inv(s) && s.queue == []
    ensures |s.log| < |Refilled(env, s).log|
  {
    hide Inv, ReactorDrained, TaskDrained, Admitted;
    ReactorDrainedKeeps(env, s);
    ReactorDrainedLogOf(env, s);
    TaskDrainedLog(ReactorDrained(env, s));
    AdmittedPlain(TaskDrained(ReactorDrained(env, s)));
  }

  lemma RefilledKeepsLine(env: Env, s: Exec, a: nat, b: nat)
    requires Inv(s) && InLine(s, a, b) && Known(s, a, b)
    requires s.queue == [] ==> !AnyDefers(env(|s.log|).before, b)
    ensures InLine(Refilled(env, s), a, b)
  {
    hide Inv, InLine, ReactorDrained, TaskDrained, Admitted, AnyDefers;
    if s.queue == [] {
      var r := ReactorDrained(env, s);
      ReactorDrainedKeeps(env, s);
      ReactorDrainedKeepsLine(env, s, a, b);
      TaskDrainedKeeps(r);
      TaskDrainedKeepsLine(r, a, b);
      if TaskDrained(r).queue == [] {
        AdmittedKeepsLine(TaskDrained(r), a, b);
      }
    }
  }

  lemma PolledOrdered(env: Env, s: Exec, from: nat, a: nat, b: nat)
    requires Inv(s) && s.queue != [] && Ordered(env, s, from, a, b) && Known(s, a, b) && from <= |s.log|
    ensures Ordered(env, Polled(env, s), from, a, b)
  {
    hide Inv, InLine, Polled, InTurn, AnyEffectDefers;
    PolledKeeps(env, s);
    PolledOutcome(env, s);
    var p := Polled(env, s);
    if InLine(s, a, b) {
      HeadInLine(s, a, b);
      if s.queue[0] != a {
        if s.queue[0] in s.slab && AnyEffectDefers(env(|s.log|).effects, b) {
          assert PutsOff(env, p.log, |s.log|, b);
        } else {
          PolledKeepsLine(env, s, a, b);
        }
      }
    }
    OrderedGrows(env, s, p, from, a, b);
  }

  lemma HeadInLine(s: Exec, a: nat, b: nat)
    requires InLine(s, a, b) && a != b && s.queue != []
    ensures s.queue[0] != b
  {
    if Ahead(s.queue, a, b) {
      HeadAhead(s.queue, a, b);
    } else {
      HeadAhead(Line(s), a, b);
      assert Line(s)[0] == s.queue[0];
    }
  }

  lemma PolledKeepsLine(env: Env, s: Exec, a: nat, b: nat)
    requires Inv(s) && s.queue != [] && InLine(s, a, b) && Known(s, a, b) && s.queue[0] != a && s.queue[0] != b
    requires s.queue[0] in s.slab ==> !AnyEffectDefers(env(|s.log|).effects, b)
    ensures InLine(Polled(env, s), a, b)
  {
    hide InLine, AllAffected, AnyEffectDefers, Recorded, Consistent, NoneLost;
    var t := s.queue[0];
    var c := s.(queue := s.queue[1..], wakes := Cleared(s.wakes, t));
    HeadTakenKeepsLine(s, a, b);
    if t in s.slab {
      var d := c.(slab := s.slab - {t});
      SlabIgnored(c, d, a, b);
      EffectsKeepLine(d, env(|s.log|).effects, a, b);
      SlabIgnored(AllAffected(d, env(|s.log|).effects), Polled(env, s), a, b);
    } else {
      SlabIgnored(c, Polled(env, s), a, b);
    }
  }

  lemma HeadTakenKeepsLine(s: Exec, a: nat, b: nat)
    requires s.queue != [] && InLine(s, a, b) && a != b && s.queue[0] != a && s.queue[0] != b
    ensures InLine(s.(queue := s.queue[1..], wakes := Cleared(s.wakes, s.queue[0])), a, b)
  {
    hide Ahead;
    if Ahead(s.queue, a, b) {
      HeadAhead(s.queue, a, b);
    } else {
      HeadAhead(Line(s), a, b);
      assert Line(s)[1..] == s.queue[1..] + s.wakes.reactorReady + s.wakes.taskReady;
    }
  }

  lemma SlabIgnored(s: Exec, s': Exec, a: nat, b: nat)
    requires InLine(s, a, b) && s'.queue == s.queue && s'.wakes == s.wakes
    ensures InLine(s', a, b)
  {
    assert Line(s') == Line(s);
  }

  lemma {:induction false} PollLoopOrdered(env: Env, budget: nat, s: Exec, count: nat, from: nat, a: nat, b: nat)
    requires Inv(s) && Ordered(env, s, from, a, b) && Known(s, a, b) && from <= |s.log|
    ensures Ordered(env, PollLoop(env, budget, s, count).s, from, a, b)
    decreases budget - count
  {
    hide Inv, Refilled, Polled, Ordered;
    if count < budget {
      RefilledKeeps(env, s);
      RefilledOrdered(env, s, from, a, b);
      var r := Refilled(env, s);
      if r.queue != [] {
        PolledKeeps(env, r);
        PolledOrdered(env, r, from, a, b);
        PollLoopOrdered(env, budget, Polled(env, r), count + 1, from, a, b);
      }
    }
  }

  lemma OpenedKeepsLine(env: Env, s: Exec, a: nat, b: nat)
    requires Inv(s) && InLine(s, a, b) && Known(s, a, b) && !AnyEffectDefers(env(|s.log|).effects, b)
    ensures InLine(Opened(env, s), a, b)
  {
    hide InLine, AllAffected, AnyEffectDefers, Recorded, Calm, DeferredDrained, AllPopped;
    var x := AllAffected(s, env(|s.log|).effects);
    AllAffectedKeeps(s, env(|s.log|).effects);
    EffectsKeepLine(s, env(|s.log|).effects, a, b);
    RecordMark(s.queue, s.slab, s.ledger, s.log, TickBegin);
    LoggedCalm(x, TickBegin);
    SlabIgnored(x, Logged(x, TickBegin), a, b);
    DeferredDrainedKeeps(Logged(x, TickBegin));
    DeferredDrainedKeepsLine(Logged(x, TickBegin), a, b);
    AllPoppedKeepsLine(DeferredDrained(Logged(x, TickBegin)), a, b);
  }

  lemma OpenedOrdered(env: Env, s: Exec, from: nat, a: nat, b: nat)
    requires Inv(s) && Ordered(env, s, from, a, b) && Known(s, a, b) && from <= |s.log|
    ensures Ordered(env, Opened(env, s), from, a, b)
  {
    hide Inv, InLine, Opened, InTurn, AnyEffectDefers, AllAffected;
    OpenedKeeps(env, s);
    OpenedShape(env, s);
    var o := Opened(env, s);
    if InLine(s, a, b) {
      if AnyEffectDefers(env(|s.log|).effects, b) {
        assert PutsOff(env, o.log, |s.log|, b);
      } else {
        OpenedKeepsLine(env, s, a, b);
      }
    }
    OrderedGrows(env, s, o, from, a, b);
  }

  /** Nothing that arrives at a park's four moments defers `b`. */
  predicate QuietPark(m: Moment, b: nat)
  {
    !AnyDefers(m.before, b) && !AnyDefers(m.early, b) && !AnyDefers(m.during, b) && !AnyDefers(m.late, b)
  }

  lemma PreparedKeepsLine(env: Env, s: Exec, a: nat, b: nat)
    requires InLine(s, a, b) && b != BLOCK_ON
    requires !AnyDefers(env(|s.log|).before, b) && !AnyDefers(env(|s.log|).early, b)
    ensures InLine(Prepared(env, s), a, b)
  {
    hide InLine, AllArrived, AnyDefers, CrossDrained;
    ArrivalsKeepLine(s, env(|s.log|).before, a, b);
    var c := AtReset(env, s);
    FlagsKeepLine(c, c.wakes.(interrupted := false), a, b);
    ArrivalsKeepLine(c.(wakes := c.wakes.(interrupted := false)), env(|s.log|).early, a, b);
    var d := Listening(env, s);
    CrossKeepsLine(d, a, b);
    FlagsKeepLine(d.(wakes := CrossDrained(d.wakes)), CrossDrained(d.wakes).(yielded := false), a, b);
  }

  lemma FiredKeepsLine(env: Env, s: Exec, woken: seq<Wake>, a: nat, b: nat)
    requires InLine(s, a, b) && b != BLOCK_ON && QuietPark(env(|s.log|), b) && !FiredDefers(woken, b)
    ensures InLine(Fired(env, s, woken), a, b)
  {
    hide InLine, AllArrived, AnyDefers, FiredDefers, AllWoken, Prepared, Flushed, Expired, FireClock;
    PreparedKeepsLine(env, s, a, b);
    var p := Prepared(env, s);
    SlabIgnored(p, p.(timers := Flushed(p.timers)), a, b);
    ArrivalsKeepLine(p.(timers := Flushed(p.timers)), env(|s.log|).during, a, b);
    FlagsKeepLine(Sleeping(env, s), Sleeping(env, s).wakes.(signalled := false), a, b);
    var f := AboutToFire(env, s);
    FiredKeepLine(f, woken, a, b);
    var x := f.(timers := Expired(f.timers, FireClock(env, s)), wakes := AllWoken(f.wakes, woken));
    SlabIgnored(f.(wakes := AllWoken(f.wakes, woken)), x, a, b);
    ArrivalsKeepLine(x, env(|s.log|).late, a, b);
    SlabIgnored(AllArrived(x, env(|s.log|).late), Fired(env, s, woken), a, b);
  }

  lemma ParkedKeepsLine(env: Env, s: Exec, woken: seq<Wake>, a: nat, b: nat)
    requires Inv(s) && InLine(s, a, b) && Known(s, a, b) && QuietPark(env(|s.log|), b) && !FiredDefers(woken, b)
    requires !AnyDefers(env(|s.log| + 1).before, b)
    ensures InLine(ParkedOnce(env, s, woken), a, b)
  {
    hide Inv, InLine, Fired, ReactorDrained, TaskDrained, QuietPark, FiredDefers, AnyDefers, Parked, FireClock;
    var f := Fired(env, s, woken);
    FiredKeeps(env, s, woken);
    FiredKeepsLine(env, s, woken, a, b);
    ReactorDrainedKeeps(env, f);
    ReactorDrainedKeepsLine(env, f, a, b);
    TaskDrainedKeepsLine(ReactorDrained(env, f), a, b);
  }

  lemma ParkedOrdered(env: Env, s: Exec, woken: seq<Wake>, from: nat, a: nat, b: nat)
    requires Inv(s) && Ordered(env, s, from, a, b) && Known(s, a, b) && from <= |s.log| && !FiredDefers(woken, b)
    ensures Ordered(env, ParkedOnce(env, s, woken), from, a, b)
  {
    hide Inv, InLine, ParkedOnce, InTurn, AnyDefers, FiredDefers, Parked, FireClock;
    ParkedKeeps(env, s, woken);
    ParkShape(env, s, woken);
    var p := ParkedOnce(env, s, woken);
    if InLine(s, a, b) {
      if !QuietPark(env(|s.log|), b) {
        assert PutsOff(env, p.log, |s.log|, b);
      } else if AnyDefers(env(|s.log| + 1).before, b) {
        assert PutsOff(env, p.log, |s.log| + 1, b);
      } else {
        ParkedKeepsLine(env, s, woken, a, b);
      }
    }
    OrderedGrows(env, s, p, from, a, b);
  }

  /** From just before a park, or from its end, to the end of the tick. */
  lemma EndOrdered(env: Env, budget: nat, s: Exec, count: nat, from: nat, a: nat, b: nat)
    requires Inv(s) && Ordered(env, s, from, a, b) && Known(s, a, b) && from <= |s.log|
    ensures Ordered(env, Logged(PollLoop(env, budget, s, count).s, TickEnd), from, a, b)
  {
    hide Inv, InLine, PollLoop, InTurn;
    PollLoopKeeps(env, budget, s, count);
    PollLoopOrdered(env, budget, s, count, from, a, b);
    var f := PollLoop(env, budget, s, count).s;
    if InLine(f, a, b) { SlabIgnored(f, Logged(f, TickEnd), a, b); }
    OrderedGrows(env, f, Logged(f, TickEnd), from, a, b);
  }

  lemma TickOrdered(env: Env, budget: nat, s: Exec, woken: seq<Wake>, from: nat, a: nat, b: nat)
    requires Inv(s) && Ordered(env, s, from, a, b) && Known(s, a, b) && from <= |s.log| && !FiredDefers(woken, b)
    ensures Ordered(env, Tick(env, budget, s, woken), from, a, b)
  {
    hide Inv, Opened, PollLoop, ParkedOnce, Parked, FireClock, Ordered, FiredDefers, AllAffected;
    OpenedKeeps(env, s);
    OpenedOrdered(env, s, from, a, b);
    PollLoopKeeps(env, budget, Opened(env, s), 0);
    PollLoopOrdered(env, budget, Opened(env, s), 0, from, a, b);
    var r := FirstLoop(env, budget, s);
    ParkedKeeps(env, r.s, woken);
    ParkedOrdered(env, r.s, woken, from, a, b);
    EndOrdered(env, budget, ParkedOnce(env, r.s, woken), r.count, from, a, b);
  }

  lemma {:induction false} RunOrdered(
      env: Env, budget: nat, s: Exec, fires: seq<seq<Wake>>, from: nat, a: nat, b: nat)
    requires Inv(s) && Ordered(env, s, from, a, b) && Known(s, a, b) && from <= |s.log|
    requires forall m :: 0 <= m < |fires| ==> !FiredDefers(fires[m], b)
    ensures Ordered(env, Run(env, budget, s, fires), from, a, b)
  {
    hide Inv, Tick, Ordered, FiredDefers;
    if fires != [] {
      var m := |fires| - 1;
      RunKeeps(env, budget, s, fires[..m]);
      RunOrdered(env, budget, s, fires[..m], from, a, b);
      TickOrdered(env, budget, Run(env, budget, s, fires[..m]), fires[m], from, a, b);
    }
  }

  /** Whoever is in line when a tick begins is polled in turn over every run. */
  lemma InLinePolledInTurn(env: Env, budget: nat, s: Exec, fires: seq<seq<Wake>>, a: nat, b: nat)
    requires Inv(s) && InLine(s, a, b) && Known(s, a, b)
    requires forall m :: 0 <= m < |fires| ==> !FiredDefers(fires[m], b)
    ensures InTurn(env, Run(env, budget, s, fires).log, |s.log|, a, b)
  {
    hide Inv, InLine, Run, Polls, FiredDefers;
    RunOrdered(env, budget, s, fires, |s.log|, a, b);
  }

  // ---- two wakes in one poll ----

  /**
   Effects `j1` and `j2` of the poll taken in `x` wake `a` and then `b` from one source.
   Neither was notified, `b` did not wait in the local queue either, and the rest of the
   poll does not defer `b`.
   */
  ghost predicate WakesInOrder(env: Env, x: Exec, j1: nat, j2: nat, ka: Waker, kb: Waker)
  {
    var effects := env(|x.log|).effects;
    && x.queue != [] && j1 < j2 < |effects|
    && effects[j1] == Arrive(WakeBy(ka, true)) && effects[j2] == Arrive(WakeBy(kb, true))
    && !ka.defer && !kb.defer && ka.source == kb.source && Known(x, ka.task, kb.task)
    && GoesThrough(Midway(env, x, j1).wakes, ka.task)
    && !Waiting(Midway(env, x, j2).wakes, Midway(env, x, j2).queue, kb.task)
    && kb.task !in Midway(env, x, j2).wakes.deferred
    && !AnyEffectDefers(effects[j2 + 1..], kb.task)
  }

  lemma MidwayKeeps(env: Env, x: Exec, j: nat)
    requires Inv(x) && x.queue != [] && j <= |env(|x.log|).effects|
    ensures Calm(Midway(env, x, j)) && Midway(env, x, j).ledger == x.ledger
  {
    hide Recorded, Consistent, NoneLost, AllAffected;
    var t := x.queue[0];
    assert x.queue == [t] + x.queue[1..];
    HeadTaken(x.wakes, t, x.queue[1..], x.ledger);
    var c := x.(queue := x.queue[1..], wakes := Cleared(x.wakes, t), slab := x.slab - {t});
    AllAffectedKeeps(c, env(|x.log|).effects[..j]);
  }

  lemma PollWakesInOrder(env: Env, x: Exec, j1: nat, j2: nat, ka: Waker, kb: Waker)
    requires Inv(x) && WakesInOrder(env, x, j1, j2, ka, kb) && x.queue[0] in x.slab
    ensures InLine(Polled(env, x), ka.task, kb.task)
  {
    hide Inv, InLine, AllAffected, Affected, Calm, AnyEffectDefers, Arrived;
    var t, effects, a, b := x.queue[0], env(|x.log|).effects, ka.task, kb.task;
    var c := x.(queue := x.queue[1..], wakes := Cleared(x.wakes, t), slab := x.slab - {t});
    MidwayKeeps(env, x, j1);
    MidwayKeeps(env, x, j1 + 1);
    MidwayKeeps(env, x, j2);
    OneMore(c, effects, j1);
    FirstWakeWaits(Midway(env, x, j1), Midway(env, x, j1 + 1), ka);
    SliceGrew(c, effects, j1 + 1, j2);
    EffectIsArrival(Midway(env, x, j2), WakeBy(kb, true));
    WakeGoesBehind(Midway(env, x, j2), a, kb);
    OneMore(c, effects, j2);
    EffectsKeepLine(Midway(env, x, j2 + 1), effects[j2 + 1..], a, b);
    AffectedSplit(c, effects, j2 + 1);
    SlabIgnored(AllAffected(c, effects), Polled(env, x), a, b);
  }

  lemma EffectIsArrival(s: Exec, e: Arrival)
    ensures Affected(s, Arrive(e)) == Arrived(s, e)
  {
  }

  lemma FirstWakeWaits(s: Exec, s': Exec, k: Waker)
    requires s' == Affected(s, Arrive(WakeBy(k, true))) && GoesThrough(s.wakes, k.task) && !k.defer
    ensures if k.source == ByReactor then k.task in s'.wakes.reactorReady else k.task in s'.wakes.taskReady
  {
    WakeReachesItsQueue(s.wakes, k);
  }

  /** Further effects only add to the ready queues. */
  lemma {:induction false} SliceGrew(c: Exec, effects: seq<Effect>, j: nat, j': nat)
    requires j <= j' <= |effects|
    ensures
      var m, m' := AllAffected(c, effects[..j]), AllAffected(c, effects[..j']);
      Grew(m.wakes, m'.wakes)
    decreases j'
  {
    hide Affected;
    if j < j' {
      SliceGrew(c, effects, j, j' - 1);
      OneMore(c, effects, j' - 1);
      OneAffectedGrew(AllAffected(c, effects[..j' - 1]), effects[j' - 1]);
    }
  }

  // ---- from that poll to the end of the run ----

  lemma {:induction false} LoopFromPoll(env: Env, budget: nat, s: Exec, count: nat, i: nat, a: nat, b: nat)
    requires Inv(s) && |s.log| <= i && RealPoll(PollLoop(env, budget, s, count).s.log, i)
    requires
      var x := BeforePoll(env, budget, s, count, i);
      x.queue != [] && InLine(Polled(env, x), a, b) && Known(x, a, b)
    ensures Ordered(env, PollLoop(env, budget, s, count).s, i + 1, a, b)
    ensures Known(PollLoop(env, budget, s, count).s, a, b) && i < |PollLoop(env, budget, s, count).s.log|
    decreases budget - count
  {
    hide Inv, Refilled, Polled, InLine;
    RefilledLog(env, s);
    RefilledKeeps(env, s);
    var r := Refilled(env, s);
    if count < budget && r.queue != [] {
      var p := Polled(env, r);
      PolledKeeps(env, r);
      PollLoopKeeps(env, budget, p, count + 1);
      if |r.log| < i {
        LoopFromPoll(env, budget, p, count + 1, i, a, b);
      } else {
        OrderedHere(env, p, a, b);
        PollLoopOrdered(env, budget, p, count + 1, |p.log|, a, b);
      }
    }
  }

  lemma OrderedHere(env: Env, s: Exec, a: nat, b: nat)
    requires InLine(s, a, b)
    ensures Ordered(env, s, |s.log|, a, b)
  {
  }

  lemma TickFromPoll(env: Env, budget: nat, s: Exec, woken: seq<Wake>, i: nat, a: nat, b: nat)
    requires Inv(s) && |s.log| <= i && RealPoll(Tick(env, budget, s, woken).log, i) && !FiredDefers(woken, b)
    requires
      var x := PollIn(env, budget, s, woken, i);
      x.queue != [] && InLine(Polled(env, x), a, b) && Known(x, a, b)
    ensures Ordered(env, Tick(env, budget, s, woken), i + 1, a, b) && Known(Tick(env, budget, s, woken), a, b)
  {
    hide Inv, Opened, PollLoop, ParkedOnce, Parked, FireClock, BeforePoll, Polled, InLine, Ordered, FiredDefers;
    var o, first, park := Opened(env, s), FirstLoop(env, budget, s), ThroughPark(env, budget, s, woken);
    var s' := Tick(env, budget, s, woken);
    OpenedKeeps(env, s);
    OpenedShapeOnly(env, s);
    PollLoopKeeps(env, budget, o, 0);
    ParkedKeeps(env, first.s, woken);
    ParkShape(env, first.s, woken);
    PollLoopKeeps(env, budget, park, first.count);
    var last := PollLoop(env, budget, park, first.count).s;
    assert s' == Logged(last, TickEnd);
    if i < |first.s.log| {
      assert s'.log[i] == first.s.log[i];
      LoopFromPoll(env, budget, o, 0, i, a, b);
      ParkedOrdered(env, first.s, woken, i + 1, a, b);
      EndOrdered(env, budget, park, first.count, i + 1, a, b);
    } else {
      assert s'.log[i] == last.log[i];
      LoopFromPoll(env, budget, park, first.count, i, a, b);
      EndKeepsOrder(env, last, i + 1, a, b);
    }
  }

  lemma EndKeepsOrder(env: Env, f: Exec, from: nat, a: nat, b: nat)
    requires Ordered(env, f, from, a, b) && from <= |f.log|
    ensures Ordered(env, Logged(f, TickEnd), from, a, b)
  {
    hide InLine, InTurn;
    if InLine(f, a, b) { SlabIgnored(f, Logged(f, TickEnd), a, b); }
    OrderedGrows(env, f, Logged(f, TickEnd), from, a, b);
  }

  /**
   Wake order is poll order. Take a poll of a run, at log position `i` in tick `n`, that
   wakes `a` and then `b` from one source, neither being notified and `b` not in line. Then
   over the rest of the run `b` is polled only after `a` was, unless something defers `b`
   first: a deferred task enters the queue at the next tick's begin, ahead of woken ones.
   */
  lemma WokenInOrder(
      env: Env, budget: nat, s: Exec, fires: seq<seq<Wake>>, n: nat, i: nat, j1: nat, j2: nat, ka: Waker, kb: Waker)
    requires Inv(s) && n < |fires|
    requires
      var r := Run(env, budget, s, fires[..n]);
      && |r.log| <= i && RealPoll(Run(env, budget, s, fires[..n + 1]).log, i)
      && WakesInOrder(env, PollIn(env, budget, r, fires[n], i), j1, j2, ka, kb)
    requires forall m :: n <= m < |fires| ==> !FiredDefers(fires[m], kb.task)
    ensures InTurn(env, Run(env, budget, s, fires).log, i + 1, ka.task, kb.task)
  {
    hide Inv, Tick, Run, PollIn, WakesInOrder, Polled, InLine, FiredDefers, InTurn, RealPoll;
    RunIsTick(env, budget, s, fires, n);
    var r, r' := Run(env, budget, s, fires[..n]), Run(env, budget, s, fires[..n + 1]);
    var x := PollIn(env, budget, r, fires[n], i);
    TickPollIs(env, budget, r, fires[n], i);
    PollWakesInOrder(env, x, j1, j2, ka, kb);
    assert Known(x, ka.task, kb.task) by { WakersKnown(env, x, j1, j2, ka, kb); }
    TickFromPoll(env, budget, r, fires[n], i, ka.task, kb.task);
    RunSplit(env, budget, s, fires, n + 1);
    assert i + 1 <= |r'.log| by { RealPollInside(r'.log, i); }
    RunOrdered(env, budget, r', fires[n + 1..], i + 1, ka.task, kb.task);
  }

  lemma RealPollInside(l: Log, i: nat)
    requires RealPoll(l, i)
    ensures i < |l|
  {
  }

  lemma WakersKnown(env: Env, x: Exec, j1: nat, j2: nat, ka: Waker, kb: Waker)
    requires WakesInOrder(env, x, j1, j2, ka, kb)
    ensures Known(x, ka.task, kb.task)
  {
  }
}
