/** Every wake of a known task is followed by a poll that begins after it, within a bound. */
module WakeDelivery {
  import opened WakeModel
  import opened ReactorModel
  import opened ExecLog
  import opened ExecModel
  import opened ExecInvariant
  import opened BoundedWaiting
  import opened TickGrammar

  /** `t` waits for a poll: in the local queue, a ready queue, or among the foreign wakes. */
  predicate Called(s: Exec, t: nat)
  {
    Waiting(s.wakes, s.queue, t) || t in s.wakes.cross
  }

  /** `t` is called, or will be when the next tick begins. */
  predicate Awaited(s: Exec, t: nat)
  {
    Called(s, t) || t in s.wakes.deferred
  }

  /** Whoever waited for a poll still waits; whoever was deferred still is. */
  ghost predicate KeepsCalled(s: Exec, s': Exec)
  {
    forall t :: t in s.ledger ==>
      && (Called(s, t) ==> Called(s', t))
      && (t in s.wakes.deferred ==> t in s'.wakes.deferred)
  }

  /** The same, except that whoever waited may have been polled in the meantime. */
  ghost predicate StillCalled(s: Exec, s': Exec)
  {
    forall t :: t in s.ledger ==>
      && (Called(s, t) ==> Called(s', t) || PolledSince(s'.log, |s.log|, t))
      && (t in s.wakes.deferred ==> t in s'.wakes.deferred)
  }

  /** A suppressed wake is a call: a known task whose bit is set waits already. */
  lemma NotifiedIsCalled(s: Exec, t: nat)
    requires Calm(s) && t in s.wakes.notified && t in s.ledger
    ensures Called(s, t)
  {
  }

  lemma KeptThrough(a: Exec, b: Exec, c: Exec)
    requires KeepsCalled(a, b) && KeepsCalled(b, c) && a.ledger <= b.ledger
    ensures KeepsCalled(a, c)
  {
  }

  lemma CalledThrough(a: Exec, b: Exec, c: Exec)
    requires StillCalled(a, b) && StillCalled(b, c)
    requires a.log <= b.log && b.log <= c.log && a.ledger <= b.ledger
    ensures StillCalled(a, c)
  {
    forall t | t in a.ledger && Called(a, t)
      ensures Called(c, t) || PolledSince(c.log, |a.log|, t)
    {
      if !Called(b, t) {
        PolledLater(b.log, c.log, |a.log|, |a.log|, t);
      } else if !Called(c, t) {
        PolledLater(c.log, c.log, |b.log|, |a.log|, t);
      }
    }
  }

  lemma KeptIsStill(s: Exec, s': Exec)
    requires KeepsCalled(s, s')
    ensures StillCalled(s, s')
  {
  }

  // ---- what the environment raises ----

  /** An arrival that makes `t` wait for a poll. */
  predicate CallsTask(a: Arrival, t: nat)
  {
    a.WakeBy? && a.waker.task == t && (a.onExecutor ==> !a.waker.defer)
  }

  /** An arrival that puts `t` off to the next tick. */
  predicate DefersTask(a: Arrival, t: nat)
  {
    a.WakeBy? && a.waker.task == t && a.onExecutor && a.waker.defer
  }

  predicate AnyCalls(arrivals: seq<Arrival>, t: nat)
  {
    exists j :: 0 <= j < |arrivals| && CallsTask(arrivals[j], t)
  }

  predicate AnyDefers(arrivals: seq<Arrival>, t: nat)
  {
    exists j :: 0 <= j < |arrivals| && DefersTask(arrivals[j], t)
  }

  predicate EffectCalls(e: Effect, t: nat)
  {
    e.Arrive? && CallsTask(e.arrival, t)
  }

  predicate EffectDefers(e: Effect, t: nat)
  {
    e == Defer(t) || (e.Arrive? && DefersTask(e.arrival, t))
  }

  predicate AnyEffectCalls(effects: seq<Effect>, t: nat)
  {
    exists j :: 0 <= j < |effects| && EffectCalls(effects[j], t)
  }

  predicate AnyEffectDefers(effects: seq<Effect>, t: nat)
  {
    exists j :: 0 <= j < |effects| && EffectDefers(effects[j], t)
  }

  predicate FiredCalls(fired: seq<Wake>, t: nat)
  {
    exists j :: 0 <= j < |fired| && fired[j].waker.task == t && !fired[j].waker.defer
  }

  predicate FiredDefers(fired: seq<Wake>, t: nat)
  {
    exists j :: 0 <= j < |fired| && fired[j].waker.task == t && fired[j].waker.defer
  }

  /**
   The event at log position `i` wakes `t`, so that it waits from then on: from the main
   future or a deferral as a tick begins, from a poll, from another thread, or from a park,
   whose fired timers are `fired`.
   */
  predicate Calls(env: Env, l: Log, i: nat, fired: seq<Wake>, t: nat)
    requires i < |l|
  {
    var m := env(i);
    match l[i]
    case TickBegin => AnyEffectCalls(m.effects, t) || AnyEffectDefers(m.effects, t)
    case PollTask(_, outcome) => outcome != Invalid && AnyEffectCalls(m.effects, t)
    case Drain(ReactorWake, _) => AnyCalls(m.before, t)
    case Park =>
      || AnyCalls(m.before, t) || AnyCalls(m.early, t) || AnyCalls(m.during, t) || AnyCalls(m.late, t)
      || FiredCalls(fired, t)
    case _ => false
  }

  /** The event at log position `i`, after its tick began, puts `t` off to the next tick. */
  predicate Defers(env: Env, l: Log, i: nat, fired: seq<Wake>, t: nat)
    requires i < |l|
  {
    var m := env(i);
    match l[i]
    case PollTask(_, outcome) => outcome != Invalid && AnyEffectDefers(m.effects, t)
    case Drain(ReactorWake, _) => AnyDefers(m.before, t)
    case Park =>
      || AnyDefers(m.before, t) || AnyDefers(m.early, t) || AnyDefers(m.during, t) || AnyDefers(m.late, t)
      || FiredDefers(fired, t)
    case _ => false
  }

  // ---- phases that only add wakes ----

  /** All queues of `w` only grew. */
  predicate Grew(w: Wakes, w': Wakes)
  {
    && w.reactorReady <= w'.reactorReady && w.taskReady <= w'.taskReady
    && w.cross <= w'.cross && w.deferred <= w'.deferred
  }

  lemma GrewCalled(s: Exec, s': Exec)
    requires Grew(s.wakes, s'.wakes) && s.queue <= s'.queue
    ensures KeepsCalled(s, s')
  {
  }

  lemma OneArrivedGrew(s: Exec, a: Arrival)
    ensures Grew(s.wakes, Arrived(s, a).wakes) && Arrived(s, a).queue == s.queue
  {
  }

  lemma OneArrivalRaises(s: Exec, a: Arrival, t: nat)
    requires Calm(s) && t in s.ledger
    ensures CallsTask(a, t) ==> Called(Arrived(s, a), t)
    ensures DefersTask(a, t) ==> t in Arrived(s, a).wakes.deferred
  {
    if CallsTask(a, t) && a.onExecutor {
      WakeLeavesWaiting(s.wakes, s.queue, s.ledger, a.waker);
    }
  }

  lemma {:induction false} ArrivalsRaise(s: Exec, arrivals: seq<Arrival>, t: nat)
    requires Calm(s) && t in s.ledger
    ensures Grew(s.wakes, AllArrived(s, arrivals).wakes) && AllArrived(s, arrivals).queue == s.queue
    ensures AnyCalls(arrivals, t) ==> Called(AllArrived(s, arrivals), t)
    ensures AnyDefers(arrivals, t) ==> t in AllArrived(s, arrivals).wakes.deferred
  {
    hide Calm, Arrived, CallsTask, DefersTask, Called;
    if arrivals != [] {
      var m := |arrivals| - 1;
      var b := AllArrived(s, arrivals[..m]);
      ArrivalsRaise(s, arrivals[..m], t);
      AllArrivedKeeps(s, arrivals[..m]);
      OneArrivedGrew(b, arrivals[m]);
      OneArrivalRaises(b, arrivals[m], t);
      GrewCalled(b, AllArrived(s, arrivals));
      assert arrivals == arrivals[..m] + [arrivals[m]];
      if AnyCalls(arrivals, t) && !CallsTask(arrivals[m], t) {
        var j :| 0 <= j < |arrivals| && CallsTask(arrivals[j], t);
        assert arrivals[..m][j] == arrivals[j];
      }
      if AnyDefers(arrivals, t) && !DefersTask(arrivals[m], t) {
        var j :| 0 <= j < |arrivals| && DefersTask(arrivals[j], t);
        assert arrivals[..m][j] == arrivals[j];
      }
    }
  }

  lemma ArrivalsKeep(s: Exec, arrivals: seq<Arrival>)
    requires Calm(s)
    ensures KeepsCalled(s, AllArrived(s, arrivals))
  {
    forall t | t in s.ledger
      ensures Called(s, t) ==> Called(AllArrived(s, arrivals), t)
      ensures t in s.wakes.deferred ==> t in AllArrived(s, arrivals).wakes.deferred
    {
      ArrivalsRaise(s, arrivals, t);
      GrewCalled(s, AllArrived(s, arrivals));
    }
  }

  lemma OneAffectedGrew(s: Exec, e: Effect)
    ensures Grew(s.wakes, Affected(s, e).wakes) && Affected(s, e).queue == s.queue
  {
    hide Registered, Deregistered;
  }

  lemma OneEffectRaises(s: Exec, e: Effect, t: nat)
    requires Calm(s) && t in s.ledger
    ensures EffectCalls(e, t) ==> Called(Affected(s, e), t)
    ensures EffectDefers(e, t) ==> t in Affected(s, e).wakes.deferred
  {
    hide Calm, Arrived, CallsTask, DefersTask, Called;
    if e.Arrive? {
      OneArrivalRaises(s, e.arrival, t);
    }
  }

  lemma {:induction false} EffectsRaise(s: Exec, effects: seq<Effect>, t: nat)
    requires Calm(s) && t in s.ledger
    ensures Grew(s.wakes, AllAffected(s, effects).wakes) && AllAffected(s, effects).queue == s.queue
    ensures AnyEffectCalls(effects, t) ==> Called(AllAffected(s, effects), t)
    ensures AnyEffectDefers(effects, t) ==> t in AllAffected(s, effects).wakes.deferred
  {
    hide Calm, Affected, EffectCalls, EffectDefers, Called;
    if effects != [] {
      var m := |effects| - 1;
      var b := AllAffected(s, effects[..m]);
      EffectsRaise(s, effects[..m], t);
      AllAffectedKeeps(s, effects[..m]);
      OneAffectedGrew(b, effects[m]);
      OneEffectRaises(b, effects[m], t);
      GrewCalled(b, AllAffected(s, effects));
      assert effects == effects[..m] + [effects[m]];
      if AnyEffectCalls(effects, t) && !EffectCalls(effects[m], t) {
        var j :| 0 <= j < |effects| && EffectCalls(effects[j], t);
        assert effects[..m][j] == effects[j];
      }
      if AnyEffectDefers(effects, t) && !EffectDefers(effects[m], t) {
        var j :| 0 <= j < |effects| && EffectDefers(effects[j], t);
        assert effects[..m][j] == effects[j];
      }
    }
  }

  lemma OneWokenGrew(w: Wakes, k: Waker)
    ensures Grew(w, Woken(w, k, true))
    ensures k.defer ==> k.task in Woken(w, k, true).deferred
  {
  }

  /** Calling the fired wakers leaves their tasks waiting, or deferred. */
  lemma {:induction false} FiredRaise(w: Wakes, queue: seq<nat>, known: set<nat>, woken: seq<Wake>, t: nat)
    requires NoneLost(w, queue, known) && t in known
    ensures Grew(w, AllWoken(w, woken))
    ensures FiredCalls(woken, t) ==> Waiting(AllWoken(w, woken), queue, t)
    ensures FiredDefers(woken, t) ==> t in AllWoken(w, woken).deferred
  {
    hide NoneLost, Woken;
    if woken != [] {
      var m := |woken| - 1;
      var k := woken[m].waker;
      var b := AllWoken(w, woken[..m]);
      FiredRaise(w, queue, known, woken[..m], t);
      AllWokenKeeps(w, queue, known, woken[..m]);
      OneWokenGrew(b, k);
      assert woken == woken[..m] + [woken[m]];
      if FiredCalls(woken, t) {
        if k.task == t && !k.defer {
          WakeLeavesWaiting(b, queue, known, k);
        } else {
          var j :| 0 <= j < |woken| && woken[j].waker.task == t && !woken[j].waker.defer;
          assert woken[..m][j] == woken[j];
        }
      }
      if FiredDefers(woken, t) && !(k.task == t && k.defer) {
        var j :| 0 <= j < |woken| && woken[j].waker.task == t && woken[j].waker.defer;
        assert woken[..m][j] == woken[j];
      }
    }
  }

  // ---- phases that move wakes to the queue ----

  lemma ReactorTakenCalled(s: Exec)
    requires Inv(s)
    ensures KeepsCalled(s, ReactorTaken(s))
  {
  }

  lemma ReactorDrainedCalled(env: Env, s: Exec)
    requires Inv(s)
    ensures KeepsCalled(s, ReactorDrained(env, s))
    ensures forall t :: t in s.ledger && AnyCalls(env(|s.log|).before, t) ==> Called(ReactorDrained(env, s), t)
    ensures forall t :: t in s.ledger && AnyDefers(env(|s.log|).before, t) ==>
      t in ReactorDrained(env, s).wakes.deferred
  {
    hide Inv, Calm, AllArrived, ReactorTaken, AnyCalls, AnyDefers, Called;
    CalmOf(s);
    var a := AllArrived(s, env(|s.log|).before);
    ReactorDrainedKeeps(env, s);
    ArrivalsKeep(s, env(|s.log|).before);
    ReactorTakenCalled(a);
    KeptThrough(s, a, ReactorTaken(a));
    forall t | t in s.ledger
      ensures AnyCalls(env(|s.log|).before, t) ==> Called(a, t)
      ensures AnyDefers(env(|s.log|).before, t) ==> t in a.wakes.deferred
    {
      ArrivalsRaise(s, env(|s.log|).before, t);
    }
  }

  lemma TaskDrainedCalled(s: Exec)
    requires Inv(s)
    ensures KeepsCalled(s, TaskDrained(s))
    ensures forall t :: t in s.ledger && Called(s, t) && s.wakes.reactorReady == [] ==> t in TaskDrained(s).queue
  {
    hide CrossDrained, Recorded, Consistent, NoneLost;
    CrossDrainedKeeps(s.wakes, s.queue, s.ledger);
  }

  lemma DeferredDrainedCalled(s: Exec)
    requires Inv(s)
    ensures forall t :: t in s.ledger && Awaited(s, t) ==> Called(DeferredDrained(s), t)
  {
  }

  lemma AdmittedCalled(s: Exec)
    ensures KeepsCalled(s, Admitted(s))
  {
    GrewCalled(s, Admitted(s));
  }

  lemma AllPoppedCalled(s: Exec)
    requires Inv(s)
    ensures KeepsCalled(s, AllPopped(s))
  {
    AllPoppedKeeps(s);
    GrewCalled(s, AllPopped(s));
  }

  lemma RefilledCalled(env: Env, s: Exec)
    requires Inv(s)
    ensures KeepsCalled(s, Refilled(env, s))
    ensures s.queue == [] ==>
      forall t :: t in s.ledger && AnyCalls(env(|s.log|).before, t) ==> Called(Refilled(env, s), t)
    ensures s.queue == [] ==>
      forall t :: t in s.ledger && AnyDefers(env(|s.log|).before, t) ==> t in Refilled(env, s).wakes.deferred
  {
    hide Inv, ReactorDrained, TaskDrained, Admitted, Called, AnyCalls, AnyDefers;
    if s.queue == [] {
      var r := ReactorDrained(env, s);
      ReactorDrainedKeeps(env, s);
      ReactorDrainedCalled(env, s);
      TaskDrainedKeeps(r);
      TaskDrainedCalled(r);
      AdmittedCalled(TaskDrained(r));
    }
  }

  lemma PolledCalled(env: Env, s: Exec)
    requires Inv(s) && s.queue != []
    ensures StillCalled(s, Polled(env, s))
    ensures s.queue[0] in s.slab ==>
      forall t :: t in s.ledger && AnyEffectCalls(env(|s.log|).effects, t) ==> Called(Polled(env, s), t)
    ensures s.queue[0] in s.slab ==>
      forall t :: t in s.ledger && AnyEffectDefers(env(|s.log|).effects, t) ==> t in Polled(env, s).wakes.deferred
  {
    hide AllAffected, Recorded, Consistent, NoneLost, AnyEffectCalls, AnyEffectDefers;
    PolledKeeps(env, s);
    var t := s.queue[0];
    assert s.queue == [t] + s.queue[1..];
    HeadTaken(s.wakes, t, s.queue[1..], s.ledger);
    var c := s.(queue := s.queue[1..], wakes := Cleared(s.wakes, t), slab := s.slab - {t});
    var s' := Polled(env, s);
    forall x | x in s.ledger
      ensures x in s.wakes.deferred ==> x in s'.wakes.deferred
      ensures Called(s, x) ==> Called(s', x) || PolledSince(s'.log, |s.log|, x)
      ensures t in s.slab && AnyEffectCalls(env(|s.log|).effects, x) ==> Called(s', x)
      ensures t in s.slab && AnyEffectDefers(env(|s.log|).effects, x) ==> x in s'.wakes.deferred
    {
      EffectsRaise(c, env(|s.log|).effects, x);
      assert s'.log[|s.log|].task == t;
    }
  }

  /**
   A wake raised while a future is polled, its own task's included, leaves its task
   waiting, or deferred: the bit was cleared before the poll began.
   */
  lemma WokenDuringPoll(env: Env, s: Exec, j: nat, k: Waker, onExecutor: bool)
    requires Inv(s) && s.queue != [] && s.queue[0] in s.slab
    requires j < |env(|s.log|).effects| && env(|s.log|).effects[j] == Arrive(WakeBy(k, onExecutor))
    requires k.task in s.ledger
    ensures if onExecutor && k.defer then k.task in Polled(env, s).wakes.deferred else Called(Polled(env, s), k.task)
  {
    hide Inv, Polled, Called;
    PolledCalled(env, s);
    var e := env(|s.log|).effects[j];
    assert if onExecutor && k.defer then EffectDefers(e, k.task) else EffectCalls(e, k.task);
  }

  lemma {:induction false} PollLoopCalled(env: Env, budget: nat, s: Exec, count: nat)
    requires Inv(s)
    ensures StillCalled(s, PollLoop(env, budget, s, count).s)
    decreases budget - count
  {
    hide Inv, Refilled, Polled, StillCalled, KeepsCalled;
    if count >= budget {
      SelfCalled(s);
    } else {
      RefilledKeeps(env, s);
      RefilledCalled(env, s);
      var r := Refilled(env, s);
      KeptIsStill(s, r);
      if r.queue != [] {
        PolledKeeps(env, r);
        PolledCalled(env, r);
        CalledThrough(s, r, Polled(env, r));
        PollLoopKeeps(env, budget, Polled(env, r), count + 1);
        PollLoopCalled(env, budget, Polled(env, r), count + 1);
        CalledThrough(s, Polled(env, r), PollLoop(env, budget, s, count).s);
      }
    }
  }

  lemma SelfCalled(s: Exec)
    ensures StillCalled(s, s)
  {
  }

  // ---- wakes raised in a poll loop ----

  /** After the event at `i` raised `t`: it waits, or was polled after `i`, or is deferred. */
  ghost predicate Answered(s: Exec, i: nat, t: nat, calls: bool, defers: bool)
  {
    && (calls ==> Called(s, t) || PolledSince(s.log, i + 1, t))
    && (defers ==> t in s.wakes.deferred)
  }

  lemma AnsweredLater(s: Exec, s': Exec, i: nat, t: nat, calls: bool, defers: bool)
    requires Answered(s, i, t, calls, defers) && StillCalled(s, s')
    requires t in s.ledger && s.log <= s'.log && i < |s.log|
    ensures Answered(s', i, t, calls, defers)
  {
    if calls && Called(s, t) {
      if !Called(s', t) { PolledLater(s'.log, s'.log, |s.log|, i + 1, t); }
    } else if calls {
      PolledLater(s.log, s'.log, i + 1, i + 1, t);
    }
  }

  /** What choosing a task raises, through its reactor drain. */
  lemma RefilledRaises(env: Env, s: Exec, i: nat, t: nat)
    requires Inv(s) && |s.log| <= i < |Refilled(env, s).log| && t in Injected(Refilled(env, s).log[..i])
    ensures
      var r := Refilled(env, s);
      Answered(r, i, t, Calls(env, r.log, i, [], t), Defers(env, r.log, i, [], t))
    ensures i == |s.log| ==> t in s.ledger
    ensures Calls(env, Refilled(env, s).log, i, [], t) || Defers(env, Refilled(env, s).log, i, [], t) ==> i == |s.log|
  {
    hide Refilled, Recorded, Calm, Called, AnyCalls, AnyDefers;
    RefilledLog(env, s);
    RefilledKeeps(env, s);
    RefilledCalled(env, s);
    var r := Refilled(env, s);
    assert r.log[..|s.log|] == s.log;
    assert s.ledger == Injected(s.log) by { LedgerOf(s); }
  }

  lemma LedgerOf(s: Exec)
    requires Inv(s)
    ensures s.ledger == Injected(s.log)
  {
  }

  lemma PolledRaises(env: Env, s: Exec, t: nat)
    requires Inv(s) && s.queue != [] && t in s.ledger
    ensures
      var p := Polled(env, s);
      && |s.log| < |p.log|
      && Answered(p, |s.log|, t, Calls(env, p.log, |s.log|, [], t), Defers(env, p.log, |s.log|, [], t))
  {
    hide Polled, Recorded, Calm, Called, AnyEffectCalls, AnyEffectDefers, Completed, Injected, PollsOk;
    PolledKeeps(env, s);
    PolledCalled(env, s);
    PolledOutcome(env, s);
  }

  lemma PolledOutcome(env: Env, s: Exec)
    requires Inv(s) && s.queue != []
    ensures
      var p := Polled(env, s);
      |s.log| < |p.log| && p.log[|s.log|].PollTask? && (p.log[|s.log|].outcome != Invalid <==> s.queue[0] in s.slab)
  {
    hide AllAffected, Recorded, Consistent, NoneLost;
    var t := s.queue[0];
    assert s.queue == [t] + s.queue[1..];
    HeadTaken(s.wakes, t, s.queue[1..], s.ledger);
    AllAffectedKeeps(
      s.(queue := s.queue[1..], wakes := Cleared(s.wakes, t), slab := s.slab - {t}), env(|s.log|).effects);
  }

  lemma CallsPrefix(env: Env, l: Log, l': Log, i: nat, fired: seq<Wake>, t: nat)
    requires l <= l' && i < |l|
    ensures Calls(env, l', i, fired, t) == Calls(env, l, i, fired, t)
    ensures Defers(env, l', i, fired, t) == Defers(env, l, i, fired, t)
    ensures l'[..i] == l[..i]
  {
  }

  /** A wake raised by any event of a poll loop is answered when the loop ends. */
  lemma {:induction false} LoopRaises(env: Env, budget: nat, s: Exec, count: nat, i: nat, t: nat)
    requires Inv(s)
    requires |s.log| <= i < |PollLoop(env, budget, s, count).s.log|
    requires t in Injected(PollLoop(env, budget, s, count).s.log[..i])
    ensures
      var r := PollLoop(env, budget, s, count).s;
      Answered(r, i, t, Calls(env, r.log, i, [], t), Defers(env, r.log, i, [], t))
    decreases budget - count
  {
    hide Inv, Refilled, Polled, StillCalled, Answered, Calls, Defers, Injected;
    var f := PollLoop(env, budget, s, count).s;
    RefilledKeeps(env, s);
    var r := Refilled(env, s);
    if r.queue == [] {
      RefilledRaises(env, s, i, t);
    } else {
      PolledKeeps(env, r);
      var p := Polled(env, r);
      PollLoopKeeps(env, budget, p, count + 1);
      PollLoopCalled(env, budget, p, count + 1);
      if i < |r.log| {
        RefillAnswered(env, s, p, f, i, t);
      } else if i == |r.log| {
        CallsPrefix(env, p.log, f.log, i, [], t);
        assert p.log[..i] == r.log;
        LedgerOf(r);
        PolledRaises(env, r, t);
        AnsweredLater(p, f, i, t, Calls(env, p.log, i, [], t), Defers(env, p.log, i, [], t));
      } else {
        LoopRaises(env, budget, p, count + 1, i, t);
      }
    }
  }

  lemma RefillAnswered(env: Env, s: Exec, p: Exec, f: Exec, i: nat, t: nat)
    requires Inv(s) && Refilled(env, s).queue != [] && p == Polled(env, Refilled(env, s)) && Inv(Refilled(env, s))
    requires p.log <= f.log && StillCalled(p, f) && |s.log| <= i < |Refilled(env, s).log|
    requires Refilled(env, s).log <= p.log && p.ledger == Refilled(env, s).ledger && t in Injected(f.log[..i])
    ensures i < |f.log| && Answered(f, i, t, Calls(env, f.log, i, [], t), Defers(env, f.log, i, [], t))
  {
    hide Inv, Refilled, Polled, StillCalled, Answered, Injected, Calls, Defers;
    var r := Refilled(env, s);
    CallsPrefix(env, r.log, f.log, i, [], t);
    RefilledRaises(env, s, i, t);
    if Calls(env, r.log, i, [], t) || Defers(env, r.log, i, [], t) {
      RefilledKeeps(env, s);
      PolledCalled(env, r);
      AnsweredLater(r, p, i, t, Calls(env, r.log, i, [], t), Defers(env, r.log, i, [], t));
      AnsweredLater(p, f, i, t, Calls(env, r.log, i, [], t), Defers(env, r.log, i, [], t));
    } else {
      NothingRaised(f, i, t);
    }
  }

  lemma NothingRaised(s: Exec, i: nat, t: nat)
    ensures Answered(s, i, t, false, false)
  {
  }

  // ---- parking ----

  lemma ListeningCalled(env: Env, s: Exec)
    requires Calm(s)
    ensures KeepsCalled(s, Listening(env, s))
    ensures forall t :: t in s.ledger && (AnyCalls(env(|s.log|).before, t) || AnyCalls(env(|s.log|).early, t)) ==>
      Called(Listening(env, s), t)
    ensures forall t :: t in s.ledger && (AnyDefers(env(|s.log|).before, t) || AnyDefers(env(|s.log|).early, t)) ==>
      t in Listening(env, s).wakes.deferred
  {
    hide Consistent, NoneLost, AllArrived, AnyCalls, AnyDefers;
    var b := AtReset(env, s);
    AllArrivedKeeps(s, env(|s.log|).before);
    ArrivalsKeep(s, env(|s.log|).before);
    FlagsKeep(b.wakes, b.queue, b.ledger);
    var c := b.(wakes := b.wakes.(interrupted := false));
    ArrivalsKeep(c, env(|s.log|).early);
    forall t | t in s.ledger
      ensures AnyCalls(env(|s.log|).before, t) ==> Called(b, t)
      ensures AnyDefers(env(|s.log|).before, t) ==> t in b.wakes.deferred
      ensures AnyCalls(env(|s.log|).early, t) ==> Called(Listening(env, s), t)
      ensures AnyDefers(env(|s.log|).early, t) ==> t in Listening(env, s).wakes.deferred
    {
      ArrivalsRaise(s, env(|s.log|).before, t);
      ArrivalsRaise(c, env(|s.log|).early, t);
    }
  }

  lemma PreparedCalled(env: Env, s: Exec)
    requires Calm(s)
    ensures KeepsCalled(Listening(env, s), Prepared(env, s))
  {
    hide CrossDrained, Consistent, NoneLost, Listening;
    ListeningKeeps(env, s);
    var a := Listening(env, s);
    CrossDrainedKeeps(a.wakes, a.queue, a.ledger);
  }

  lemma SleepingCalled(env: Env, s: Exec)
    requires Calm(s)
    ensures KeepsCalled(Prepared(env, s), AboutToFire(env, s))
    ensures forall t :: t in s.ledger && AnyCalls(env(|s.log|).during, t) ==> Called(AboutToFire(env, s), t)
    ensures forall t :: t in s.ledger && AnyDefers(env(|s.log|).during, t) ==> t in AboutToFire(env, s).wakes.deferred
  {
    hide Prepared, AllArrived, Consistent, NoneLost, Flushed, AnyCalls, AnyDefers, Live;
    PreparedKeeps(env, s);
    FlushedKeeps(s.timers);
    var p := Prepared(env, s);
    var c := p.(timers := Flushed(p.timers));
    ArrivalsKeep(c, env(|s.log|).during);
    forall t | t in s.ledger
      ensures AnyCalls(env(|s.log|).during, t) ==> Called(Sleeping(env, s), t)
      ensures AnyDefers(env(|s.log|).during, t) ==> t in Sleeping(env, s).wakes.deferred
    {
      ArrivalsRaise(c, env(|s.log|).during, t);
    }
  }

  /** The timers' wakers, then what arrived late. */
  lemma FiringCalled(env: Env, s: Exec, woken: seq<Wake>)
    requires Inv(s)
    ensures KeepsCalled(AboutToFire(env, s), Fired(env, s, woken))
    ensures forall t :: t in s.ledger && (AnyCalls(env(|s.log|).late, t) || FiredCalls(woken, t)) ==>
      Called(Fired(env, s, woken), t)
    ensures forall t :: t in s.ledger && (AnyDefers(env(|s.log|).late, t) || FiredDefers(woken, t)) ==>
      t in Fired(env, s, woken).wakes.deferred
  {
    hide AboutToFire, AllArrived, AllWoken, Consistent, NoneLost, Recorded, Flushed, Expired, FireClock, Live, Parked;
    hide AnyCalls, AnyDefers, FiredCalls, FiredDefers;
    AboutToFireKeeps(env, s);
    var f := AboutToFire(env, s);
    var now := FireClock(env, s);
    assert Consistent(Expired(f.timers, now)) by { FiringConsistent(env, s); }
    AllWokenKeeps(f.wakes, f.queue, f.ledger, woken);
    var x := f.(timers := Expired(f.timers, now), wakes := AllWoken(f.wakes, woken));
    ArrivalsKeep(x, env(|s.log|).late);
    forall t | t in s.ledger
      ensures Called(f, t) || FiredCalls(woken, t) ==> Called(x, t)
      ensures t in f.wakes.deferred || FiredDefers(woken, t) ==> t in x.wakes.deferred
      ensures AnyCalls(env(|s.log|).late, t) ==> Called(Fired(env, s, woken), t)
      ensures AnyDefers(env(|s.log|).late, t) ==> t in Fired(env, s, woken).wakes.deferred
    {
      FiredRaise(f.wakes, f.queue, f.ledger, woken, t);
      ArrivalsRaise(x, env(|s.log|).late, t);
    }
  }

  lemma FiringConsistent(env: Env, s: Exec)
    requires Calm(s)
    ensures Consistent(Expired(AboutToFire(env, s).timers, FireClock(env, s)))
  {
    hide AboutToFire, Flushed, Expired;
    AboutToFireKeeps(env, s);
    FlushedKeeps(s.timers);
    ParkFiresLiveDue(s.timers, env(|s.log|).reading);
  }

  lemma FiredCalled(env: Env, s: Exec, woken: seq<Wake>)
    requires Inv(s)
    ensures KeepsCalled(s, Fired(env, s, woken))
    ensures Fired(env, s, woken).log == s.log + [Park]
    ensures forall t :: t in s.ledger && Calls(env, s.log + [Park], |s.log|, woken, t) ==>
      Called(Fired(env, s, woken), t)
    ensures forall t :: t in s.ledger && Defers(env, s.log + [Park], |s.log|, woken, t) ==>
      t in Fired(env, s, woken).wakes.deferred
  {
    hide Listening, Prepared, AboutToFire, Fired, Called, Recorded, Calm, AnyCalls, AnyDefers, FiredCalls;
    hide FiredDefers, Parked, FireClock;
    FiredKeeps(env, s, woken);
    ListeningKeeps(env, s);
    PreparedKeeps(env, s);
    AboutToFireKeeps(env, s);
    ListeningCalled(env, s);
    PreparedCalled(env, s);
    SleepingCalled(env, s);
    FiringCalled(env, s, woken);
  }

  /** After a park every called task stands in the local queue. */
  lemma ParkedCalled(env: Env, s: Exec, woken: seq<Wake>)
    requires Inv(s)
    ensures forall t :: t in s.ledger && Called(s, t) ==> t in ParkedOnce(env, s, woken).queue
    ensures forall t :: t in s.ledger && FiredCalls(woken, t) ==> t in ParkedOnce(env, s, woken).queue
    ensures KeepsCalled(s, ParkedOnce(env, s, woken))
  {
    hide Fired, ReactorDrained, TaskDrained, Inv, Called, FiredCalls, Calm, AnyCalls, AnyDefers, FiredDefers;
    hide Parked, FireClock;
    var f := Fired(env, s, woken);
    FiredKeeps(env, s, woken);
    FiredCalled(env, s, woken);
    ReactorDrainedKeeps(env, f);
    ReactorDrainedCalled(env, f);
    var r := ReactorDrained(env, f);
    TaskDrainedCalled(r);
    assert (s.log + [Park])[|s.log|] == Park;
  }

  /** Whoever a park's events wake stands in the local queue right after it. */
  lemma ParkRaises(env: Env, s: Exec, woken: seq<Wake>, i: nat, t: nat)
    requires Inv(s) && |s.log| <= i < |ParkedOnce(env, s, woken).log|
    requires t in Injected(ParkedOnce(env, s, woken).log[..i])
    ensures
      var p := ParkedOnce(env, s, woken);
      && (Calls(env, p.log, i, woken, t) ==> t in p.queue)
      && (Defers(env, p.log, i, woken, t) ==> t in p.wakes.deferred)
  {
    hide Fired, ReactorDrained, TaskDrained, Recorded, Calm, Called, AnyCalls, AnyDefers, FiredCalls;
    hide FiredDefers, Parked, FireClock;
    var p, f := ParkedOnce(env, s, woken), Fired(env, s, woken);
    var r := ReactorDrained(env, f);
    ParkShape(env, s, woken);
    FiredKeeps(env, s, woken);
    FiredCalled(env, s, woken);
    ReactorDrainedKeeps(env, f);
    ReactorDrainedCalled(env, f);
    ReactorDrainedLogOf(env, f);
    TaskDrainedKeeps(r);
    TaskDrainedCalled(r);
    if i == |s.log| {
      assert p.log[..i] == s.log;
      LedgerOf(s);
      CallsPrefix(env, s.log + [Park], p.log, i, woken, t);
    } else if i == |s.log| + 1 {
      assert p.log[..i] == f.log;
      LedgerOf(f);
    }
  }

  lemma ReactorDrainedLogOf(env: Env, s: Exec)
    requires Inv(s)
    ensures |ReactorDrained(env, s).log| == |s.log| + 1 && s.log <= ReactorDrained(env, s).log
  {
    hide ReactorDrained, Recorded, NoneLost, Consistent;
    ReactorDrainedLog(env, s);
  }

  // ---- ticks ----

  lemma OpenedCalled(env: Env, s: Exec)
    requires Inv(s)
    ensures forall t :: t in s.ledger && Awaited(s, t) ==> Called(Opened(env, s), t)
    ensures forall t :: t in s.ledger && AnyEffectCalls(env(|s.log|).effects, t) ==> Called(Opened(env, s), t)
    ensures forall t :: t in s.ledger && AnyEffectDefers(env(|s.log|).effects, t) ==> Called(Opened(env, s), t)
  {
    hide Recorded, NoneLost, Consistent, AllAffected, DeferredDrained, AllPopped, AnyEffectCalls, AnyEffectDefers;
    var a := AllAffected(s, env(|s.log|).effects);
    AllAffectedKeeps(s, env(|s.log|).effects);
    var b := Logged(a, TickBegin);
    RecordMark(s.queue, s.slab, s.ledger, s.log, TickBegin);
    DeferredDrainedKeeps(b);
    DeferredDrainedCalled(b);
    AllPoppedCalled(DeferredDrained(b));
    forall t | t in s.ledger
      ensures Awaited(s, t) || AnyEffectCalls(env(|s.log|).effects, t) || AnyEffectDefers(env(|s.log|).effects, t) ==>
        Awaited(b, t)
    {
      EffectsRaise(s, env(|s.log|).effects, t);
    }
  }

  /**
   A task that was called or deferred when a tick begins is polled before the tick's park,
   or stands in the local queue right after it.
   */
  lemma ServedByPark(env: Env, budget: nat, s: Exec, woken: seq<Wake>, t: nat)
    requires Inv(s) && t in s.ledger && Awaited(s, t)
    ensures
      var p := ThroughPark(env, budget, s, woken);
      t in p.queue || PolledSince(p.log, |s.log|, t)
  {
    hide Inv, Opened, PollLoop, ParkedOnce, Parked, FireClock, StillCalled, KeepsCalled, Called, Awaited;
    OpenedKeeps(env, s);
    OpenedCalled(env, s);
    CalledByPark(env, budget, s, woken, |s.log|, t);
  }

  /** The same from any moment of the tick's opening on. */
  lemma CalledByPark(env: Env, budget: nat, s: Exec, woken: seq<Wake>, i: nat, t: nat)
    requires Inv(s) && Inv(Opened(env, s)) && t in Opened(env, s).ledger && Called(Opened(env, s), t)
    requires i <= |Opened(env, s).log|
    ensures
      var p := ThroughPark(env, budget, s, woken);
      t in p.queue || PolledSince(p.log, i, t)
  {
    hide Inv, Opened, PollLoop, ParkedOnce, Parked, FireClock, StillCalled, KeepsCalled, Called;
    var o := Opened(env, s);
    var r := FirstLoop(env, budget, s);
    PollLoopKeeps(env, budget, o, 0);
    PollLoopCalled(env, budget, o, 0);
    ParkedKeeps(env, r.s, woken);
    ParkedCalled(env, r.s, woken);
    UseCalled(o, r.s, t);
    if !Called(r.s, t) {
      PolledLater(r.s.log, ThroughPark(env, budget, s, woken).log, |o.log|, i, t);
    }
  }

  lemma UseCalled(s: Exec, s': Exec, t: nat)
    requires StillCalled(s, s') && t in s.ledger && Called(s, t)
    ensures Called(s', t) || PolledSince(s'.log, |s.log|, t)
  {
  }

  /** Whoever waits when a tick begins is polled in it or still waits when it ends. */
  lemma TickCalled(env: Env, budget: nat, s: Exec, woken: seq<Wake>, t: nat)
    requires Inv(s) && t in s.ledger && Awaited(s, t)
    ensures
      var s' := Tick(env, budget, s, woken);
      Called(s', t) || PolledSince(s'.log, |s.log|, t)
  {
    hide Inv, ThroughPark, PollLoop, FirstLoop, FireClock, StillCalled, Awaited;
    ThroughParkKeeps(env, budget, s, woken);
    TickKeeps(env, budget, s, woken);
    ServedByPark(env, budget, s, woken, t);
    ParkToEnd(env, budget, s, woken, |s.log|, t);
  }

  /** From just after its park to the end of a tick. */
  lemma ParkToEnd(env: Env, budget: nat, s: Exec, woken: seq<Wake>, i: nat, t: nat)
    requires Inv(s) && t in ThroughPark(env, budget, s, woken).ledger && i <= |ThroughPark(env, budget, s, woken).log|
    ensures
      var p, s' := ThroughPark(env, budget, s, woken), Tick(env, budget, s, woken);
      && (t in p.queue || PolledSince(p.log, i, t) ==> Called(s', t) || PolledSince(s'.log, i, t))
      && (t in p.wakes.deferred ==> t in s'.wakes.deferred)
  {
    hide Inv, ThroughPark, PollLoop, FirstLoop, FireClock, StillCalled;
    var p, count := ThroughPark(env, budget, s, woken), FirstLoop(env, budget, s).count;
    ThroughParkKeeps(env, budget, s, woken);
    TickKeeps(env, budget, s, woken);
    PollLoopKeeps(env, budget, p, count);
    PollLoopCalled(env, budget, p, count);
    var r := PollLoop(env, budget, p, count).s;
    UseStill(p, r, t);
    if PolledSince(p.log, i, t) {
      PolledLater(p.log, Tick(env, budget, s, woken).log, i, i, t);
    } else if t in p.queue && !Called(r, t) {
      PolledLater(r.log, Tick(env, budget, s, woken).log, |p.log|, i, t);
    }
  }

  lemma UseStill(s: Exec, s': Exec, t: nat)
    requires StillCalled(s, s') && t in s.ledger
    ensures Called(s, t) ==> Called(s', t) || PolledSince(s'.log, |s.log|, t)
    ensures t in s.wakes.deferred ==> t in s'.wakes.deferred
  {
  }
}
