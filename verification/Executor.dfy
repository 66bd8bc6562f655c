/** The executor, updated in place: each method carries out one function of ExecModel. */
module Executors {
  import opened Options
  import opened WakeModel
  import opened ReactorModel
  import opened ExecLog
  import opened ExecModel
  import opened ExecInvariant
  import opened ThreadLocal
  import opened TidLedgers
  import opened QueueOrder
  import Reactors

  class Executor {
    const env: Env
    const eventInterval: nat
    const tls: Tls
    const ledger: TidLedger
    const reactor: Reactors.Reactor
    var localQueue: seq<nat>
    var taskSlab: set<nat>
    var channel: seq<nat>
    ghost var sent: seq<nat>
    var log: Log

    ghost function State(): Exec
      reads this, tls, ledger, reactor, reactor.wheel, reactor.resources
    {
      Exec(localQueue, taskSlab, ledger.View(), channel, sent, log, tls.State(), reactor.State())
    }

    ghost predicate Valid()
      reads this, tls, ledger, reactor, reactor.wheel, reactor.resources
    {
      reactor.Valid()
    }

    constructor (env: Env, eventInterval: nat)
      ensures Valid() && State() == IDLE && Inv(State())
      ensures this.env == env && this.eventInterval == eventInterval
      ensures fresh(tls) && fresh(ledger) && fresh(reactor) && fresh(reactor.wheel) && fresh(reactor.resources)
    {
      hide Reactors.Reactor.Valid, Set, NoneLost, Recorded;
      this.env := env;
      this.eventInterval := eventInterval;
      tls := new Tls();
      ledger := new TidLedger();
      reactor := new Reactors.Reactor();
      localQueue, taskSlab, channel, sent, log := [], {}, [], [], [];
      new;
      IdleInv();
    }

    // ---- the environment's effects ----

    method Arrive(arrivals: seq<Arrival>)
      modifies this`channel, this`sent, tls
      ensures State() == AllArrived(old(State()), arrivals)
    {
      hide Woken, Set, Reactors.Reactor.State;
      var i := 0;
      assert arrivals[..0] == [];
      while i < |arrivals|
        invariant i <= |arrivals|
        invariant State() == AllArrived(old(State()), arrivals[..i])
      {
        assert arrivals[..i + 1][..i] == arrivals[..i];
        match arrivals[i] {
          case WakeBy(waker, onExecutor) =>
            tls.WakeImpl(waker, onExecutor);
          case Send(t) =>
            channel, sent := channel + [t], sent + [t];
            tls.Interrupt();
        }
        i := i + 1;
      }
      assert arrivals[..i] == arrivals;
    }

    /** What a future's code does through its handles while it is polled. */
    method Affect(effects: seq<Effect>)
      requires Valid()
      modifies this`channel, this`sent, tls, reactor, reactor.wheel, reactor.resources
      ensures Valid() && State() == AllAffected(old(State()), effects)
    {
      hide State, Valid, Affected;
      var i := 0;
      assert effects[..0] == [];
      while i < |effects|
        invariant i <= |effects| && Valid()
        invariant State() == AllAffected(old(State()), effects[..i])
      {
        assert effects[..i + 1][..i] == effects[..i];
        AffectOne(effects[i]);
        i := i + 1;
      }
      assert effects[..i] == effects;
    }

    method AffectOne(effect: Effect)
      requires Valid()
      modifies this`channel, this`sent, tls, reactor, reactor.wheel, reactor.resources
      ensures Valid() && State() == Affected(old(State()), effect)
    {
      hide Set, Arrived, Registered, Deregistered, Reactors.Reactor.State, Reactors.Reactor.Valid;
      match effect {
        case Arrive(a) =>
          assert [a][..0] == [];
          Arrive([a]);
        case Defer(t) =>
          tls.DeferCurrent(t);
        case RegisterTimer(deadline, waker) =>
          reactor.TryRegister(deadline, waker);
        case DeregisterTimer(rid) =>
          reactor.TryDeregister(rid);
      }
    }

    // ---- drains ----

    /** Appends to the queue the ids the ledger knows, each as often as it is there, in their order. */
    method FilterAndEnqueue(ids: seq<nat>) returns (kept: seq<nat>)
      modifies this`localQueue
      ensures localQueue == old(localQueue) + kept
      ensures exists at :: Sifted(kept, ids, ledger.View(), at)
      ensures SameKnown(kept, ids, ledger.View())
      ensures kept == Kept(ids, ledger.View())
    {
      hide Sifted, SameKnown, Kept, TidLedger.View;
      kept := [];
      var i := 0;
      KeptNone(ids, ledger.View());
      while i < |ids|
        invariant i <= |ids| && kept == Kept(ids[..i], ledger.View())
        invariant localQueue == old(localQueue) + kept
      {
        KeptNext(ids, i, ledger.View());
        var known := ledger.Contains(ids[i]);
        if known {
          kept := kept + [ids[i]];
          localQueue := localQueue + [ids[i]];
        }
        i := i + 1;
      }
      assert ids[..i] == ids;
      ghost var at := KeptIsSifted(ids, ledger.View());
    }

    /** Drains the reactor's wakes, after whatever other threads did since the last event. */
    method DrainReactorReady()
      modifies this`localQueue, this`log, this`channel, this`sent, tls
      ensures State() == ReactorDrained(env, old(State()))
    {
      hide Set, Kept, AllArrived;
      Arrive(env(|log|).before);
      var ids := tls.TakeReactorReady();
      var kept := FilterAndEnqueue(ids);
      log := log + [Drain(ReactorWake, kept)];
    }

    method DrainTaskReady()
      modifies this`localQueue, this`log, tls
      ensures State() == TaskDrained(old(State()))
    {
      hide Set, Kept, CrossDrained;
      tls.DrainCrossThread();
      var ids := tls.TakeTaskReady();
      var kept := FilterAndEnqueue(ids);
      log := log + [Drain(TaskWake, kept)];
    }

    method DrainDeferred()
      modifies this`localQueue, this`log, tls
      ensures State() == DeferredDrained(old(State()))
    {
      hide Set, Kept;
      var ids := tls.TakeDeferred();
      var kept := FilterAndEnqueue(ids);
      log := log + [Drain(Deferred, kept)];
    }

    // ---- injection ----

    /** One receive: a task seen before is dropped and logged as an empty pop. */
    method PopInjectionAction() returns (result: Option<nat>)
      modifies this`channel, this`log, ledger
      ensures State() == Popped(old(State())) && result == Accepts(old(State()))
    {
      if channel == [] {
        log := log + [Event.PopInjection(None)];
        return None;
      }
      var t := channel[0];
      channel := channel[1..];
      var known := ledger.Contains(t);
      if known {
        log := log + [Event.PopInjection(None)];
        return None;
      }
      ledger.Mark(t);
      log := log + [Event.PopInjection(Some(t))];
      result := Some(t);
    }

    method PopInjectionOnce() returns (result: Option<nat>)
      modifies this`channel, this`log, this`taskSlab, this`localQueue, ledger
      ensures State() == Admitted(old(State())) && result == Accepts(old(State()))
    {
      result := PopInjectionAction();
      if result.Some? {
        taskSlab := taskSlab + {result.value};
        localQueue := localQueue + [result.value];
      }
    }

    /** Receives until a receive yields no task. */
    method PopInjection()
      modifies this`channel, this`log, this`taskSlab, this`localQueue, ledger
      ensures State() == AllPopped(old(State()))
    {
      hide Admitted;
      var more := true;
      while more
        invariant AllPopped(old(State())) == if more then AllPopped(State()) else State()
        decreases more, |channel|
      {
        ghost var before := State();
        var popped := PopInjectionOnce();
        AdmittedShrinks(before);
        more := popped.Some?;
      }
    }

    // ---- choosing and polling ----

    /** The next task: from the queue, else after draining wakes, else freshly injected. */
    method NextTask() returns (result: Option<nat>)
      modifies this`localQueue, this`log, this`channel, this`sent, this`taskSlab, tls, ledger
      ensures
        var r := Refilled(env, old(State()));
        if r.queue == [] then result == None && State() == r
        else result == Some(r.queue[0]) && State() == r.(queue := r.queue[1..])
    {
      hide ReactorDrained, TaskDrained, Admitted, Set;
      if localQueue != [] {
        result := Some(localQueue[0]);
        localQueue := localQueue[1..];
        return;
      }
      DrainReactorReady();
      DrainTaskReady();
      if localQueue != [] {
        result := Some(localQueue[0]);
        localQueue := localQueue[1..];
        return;
      }
      ghost var before := State();
      var popped := PopInjectionOnce();
      AdmittedQueue(before);
      if popped.Some? {
        result := Some(localQueue[0]);
        localQueue := localQueue[1..];
        return;
      }
      result := None;
    }

    /** Polls task `t`, just taken off the queue `[t] + localQueue`. */
    method PollTask(t: nat)
      requires Valid()
      modifies this`taskSlab, this`log, this`channel, this`sent, tls, reactor, reactor.wheel, reactor.resources
      ensures Valid()
      ensures |log| == |old(log)| + 1 && log[..|old(log)|] == old(log)
      ensures
        var ready := env(|old(log)|).ready;
        && taskSlab == (if ready then old(taskSlab) - {t} else old(taskSlab))
        && log[|old(log)|]
           == Event.PollTask(t, if t !in old(taskSlab) then Invalid else if ready then Ready else Pending)
      ensures State() == Polled(env, old(State()).(queue := [t] + old(State()).queue))
    {
      hide Set, AllAffected, Reactors.Reactor.State, Reactors.Reactor.Valid;
      ghost var s := State().(queue := [t] + localQueue);
      assert s.queue[1..] == localQueue;
      var moment := env(|log|);
      tls.ClearNotified(t);
      if t in taskSlab {
        taskSlab := taskSlab - {t};
        Affect(moment.effects);
        AffectedTables(s.(queue := s.queue[1..], wakes := Cleared(s.wakes, t), slab := s.slab - {t}), moment.effects);
        if moment.ready {
          log := log + [Event.PollTask(t, Ready)];
        } else {
          taskSlab := taskSlab + {t};
          log := log + [Event.PollTask(t, Pending)];
        }
      } else {
        log := log + [Event.PollTask(t, Invalid)];
      }
    }

    /** Polls the next task, if there is one. */
    method PollNext() returns (found: bool)
      requires Valid()
      modifies this`localQueue, this`taskSlab, this`log, this`channel, this`sent
      modifies tls, ledger, reactor, reactor.wheel, reactor.resources
      ensures Valid()
      ensures
        var r := Refilled(env, old(State()));
        if r.queue == [] then !found && State() == r else found && State() == Polled(env, r)
    {
      hide Set, Refilled, Polled, Consistent;
      ghost var s := State();
      var next := NextTask();
      if next.Some? {
        HeadAndRest(Refilled(env, s), State(), next.value);
        PollTask(next.value);
      }
      found := next.Some?;
    }

    /** Polls tasks until the shared budget is used up or no task is left. */
    method PollLoop(count: nat) returns (polled: nat)
      requires Valid() && Inv(State())
      modifies this`localQueue, this`taskSlab, this`log, this`channel, this`sent
      modifies tls, ledger, reactor, reactor.wheel, reactor.resources
      ensures Valid() && Inv(State())
      ensures State() == ExecModel.PollLoop(env, eventInterval, old(State()), count).s
      ensures polled == ExecModel.PollLoop(env, eventInterval, old(State()), count).count
    {
      hide State, Valid, Set, Inv, Refilled, Polled, Consistent, ExecModel.PollLoop;
      polled := count;
      var more := true;
      while more && polled < eventInterval
        invariant Valid() && Inv(State())
        invariant ExecModel.PollLoop(env, eventInterval, old(State()), count)
          == if more then ExecModel.PollLoop(env, eventInterval, State(), polled) else Loop(State(), polled)
        decreases eventInterval - polled, more
      {
        PollLoopUnfolds(env, eventInterval, State(), polled);
        RefillPollKeeps(env, State());
        more := PollNext();
        if more {
          polled := polled + 1;
        }
      }
      PollLoopUnfolds(env, eventInterval, State(), polled);
    }

    // ---- parking ----

    /** Calls the wakers of fired timers. */
    method WakeAll(woken: seq<Wake>)
      modifies tls
      ensures tls.State() == AllWoken(old(tls.State()), woken)
    {
      hide Set, Woken;
      var i := 0;
      assert woken[..0] == [];
      while i < |woken|
        invariant i <= |woken| && tls.State() == AllWoken(old(tls.State()), woken[..i])
      {
        assert woken[..i + 1][..i] == woken[..i];
        tls.WakeImpl(woken[i].waker, true);
        i := i + 1;
      }
      assert woken[..i] == woken;
    }

    /** Resets the interrupt, drains foreign wakes, and decides whether the OS poll may sleep. */
    method PreparePark() returns (requireTimeout: bool)
      modifies this`channel, this`sent, tls
      ensures State() == Prepared(env, old(State()))
      ensures requireTimeout == RequiresTimeout(env, old(State()))
    {
      hide Set, CrossDrained, AllArrived;
      CrossDrainedKeeps(Listening(env, State()).wakes, [], {});
      var hasDeferred := tls.deferred != [];
      var hasReactorReady := tls.reactorReady != [];
      Arrive(env(|log|).before);
      tls.ResetInterrupt();
      Arrive(env(|log|).early);
      tls.DrainCrossThread();
      var hasTaskReady := tls.taskReady != [];
      var hasLocalTasks := localQueue != [];
      var yielded := tls.TakeYielded();
      requireTimeout := !yielded && !hasDeferred && !hasReactorReady && !hasTaskReady && !hasLocalTasks;
    }

    /** Flushes the kept-back cancellation; then the OS poll runs and takes the interrupt's signal. */
    method PollOs(moment: Moment)
      requires Valid()
      modifies this`channel, this`sent, tls, reactor, reactor.wheel, reactor.resources
      ensures Valid() && reactor.pendingDeregister == None
      ensures
        var f := AllArrived(old(State()).(timers := Flushed(old(State()).timers)), moment.during);
        State() == f.(wakes := f.wakes.(signalled := false))
    {
      hide Set, AllArrived, Flushed, Reactors.Reactor.State, Reactors.Reactor.Valid;
      reactor.FlushPendingDeregister();
      Arrive(moment.during);
      var _ := tls.TakeSignal();
    }

    /** The reactor's park, sleeping 100 ms at most if nothing is ready and not at all otherwise. */
    method ParkReactor(requireTimeout: bool, moment: Moment) returns (slept: nat, woken: seq<Wake>)
      requires Valid() && reactor.pendingDeregister == None
      modifies this`channel, this`sent, this`log, tls, reactor.wheel, reactor.resources
      ensures Valid()
      ensures
        var q := old(State());
        SleepsLeast(
          q.timers.wheel, Clock(q.timers, moment.reading), Some(if requireTimeout then 100 else 0), Some(slept))
      ensures
        var q := old(State());
        && Enumerates(woken, q.timers, Clock(q.timers, moment.reading))
        && State() == Logged(AllArrived(
             q.(timers := Expired(q.timers, Clock(q.timers, moment.reading)), wakes := AllWoken(q.wakes, woken)),
             moment.late), Event.Park)
    {
      hide Set, AllArrived, Enumerates, Expired, AllWoken, SleepsLeast, Reactors.Reactor.State, Reactors.Reactor.Valid;
      var polled;
      polled, woken := reactor.Park(Some(if requireTimeout then 100 else 0), moment.reading);
      assert polled.Some? by { SleepsSome(old(State()), moment.reading, if requireTimeout then 100 else 0, polled); }
      slept := polled.value;
      WakeAll(woken);
      Arrive(moment.late);
      log := log + [Event.Park];
    }

    /** Parks, then moves every ready task to the local queue. The OS poll may sleep only if nothing is ready. */
    method Park() returns (slept: nat, woken: seq<Wake>)
      requires Valid()
      modifies this`localQueue, this`log, this`channel, this`sent, tls, reactor, reactor.wheel, reactor.resources
      ensures Valid() && State() == ParkedOnce(env, old(State()), woken)
      ensures Enumerates(woken, AboutToFire(env, old(State())).timers, FireClock(env, old(State())))
      ensures !RequiresTimeout(env, old(State())) ==> slept == 0
      ensures RequiresTimeout(env, old(State())) ==>
        SleepsLeast(AboutToFire(env, old(State())).timers.wheel, FireClock(env, old(State())), Some(100), Some(slept))
      ensures
        var wheel := AboutToFire(env, old(State())).timers.wheel;
        RequiresTimeout(env, old(State())) ==>
          (slept == 100 <==> forall r :: r in wheel ==> 100 <= Distance(FireClock(env, old(State())), wheel[r]))
    {
      hide Set, Prepared, Expired, Flushed, Enumerates, AllWoken, AllArrived;
      hide ReactorDrained, TaskDrained, RequiresTimeout, Reactors.Reactor.State, Reactors.Reactor.Valid, SleepsLeast;
      ghost var s := State();
      var moment := env(|log|);
      var requireTimeout := PreparePark();
      PollOs(moment);
      slept, woken := ParkReactor(requireTimeout, moment);
      SleepsInFull(AboutToFire(env, s).timers.wheel, FireClock(env, s), if requireTimeout then 100 else 0, slept);
      DrainReactorReady();
      DrainTaskReady();
    }

    // ---- ticks ----

    method WakeDeferred()
      modifies this`localQueue, this`log, tls
      ensures State() == DeferredDrained(old(State()))
    {
      DrainDeferred();
    }

    /** One tick. The timers it fires are exactly those due at its park. */
    method Tick() returns (woken: seq<Wake>)
      requires Valid() && Inv(State())
      modifies this`localQueue, this`taskSlab, this`log, this`channel, this`sent
      modifies tls, ledger, reactor, reactor.wheel, reactor.resources
      ensures Valid() && Inv(State())
      ensures State() == ExecModel.Tick(env, eventInterval, old(State()), woken)
      ensures FiresWhatIsDue(env, eventInterval, old(State()), woken)
    {
      hide Set, Inv, AllAffected, DeferredDrained, AllPopped, ExecModel.PollLoop, ParkedOnce, Enumerates;
      hide AboutToFire, FireClock, RequiresTimeout, Reactors.Reactor.State, Reactors.Reactor.Valid;
      ghost var s := State();
      TickPhasesKeep(env, eventInterval, s);
      Affect(env(|log|).effects);
      AffectedLog(s, env(|s.log|).effects);
      log := log + [Event.TickBegin];
      WakeDeferred();
      PopInjection();
      var count := PollLoop(0);
      var _, fired := Park();
      woken := fired;
      ParkKeepsInv(env, FirstLoop(env, eventInterval, s).s, woken);
      count := PollLoop(count);
      log := log + [Event.TickEnd];
      TickKeepsInv(env, eventInterval, s, woken);
    }
  }

  lemma SleepsSome(q: Exec, reading: nat, timeout: nat, slept: Option<nat>)
    requires SleepsLeast(q.timers.wheel, Clock(q.timers, reading), Some(timeout), slept)
    ensures slept.Some?
  {
  }

  lemma TickPhasesKeep(env: Env, budget: nat, s: Exec)
    requires Inv(s)
    ensures Inv(Opened(env, s)) && Inv(FirstLoop(env, budget, s).s)
  {
    OpenedKeeps(env, s);
    FirstLoopKeeps(env, budget, s);
  }

  lemma ParkKeepsInv(env: Env, s: Exec, woken: seq<Wake>)
    requires Inv(s)
    ensures Inv(ParkedOnce(env, s, woken))
  {
    ParkedKeeps(env, s, woken);
  }

  lemma TickKeepsInv(env: Env, budget: nat, s: Exec, woken: seq<Wake>)
    requires Inv(s)
    ensures Inv(ExecModel.Tick(env, budget, s, woken))
  {
    TickKeeps(env, budget, s, woken);
  }

  lemma AffectedLog(s: Exec, effects: seq<Effect>)
    ensures AllAffected(s, effects).log == s.log
  {
    AffectedTables(s, effects);
  }

  lemma AdmittedShrinks(s: Exec)
    ensures Accepts(s).Some? ==> |Admitted(s).channel| < |s.channel|
    ensures Accepts(s) == None ==> Admitted(s) == Popped(s)
  {
  }

  lemma RefillPollKeeps(env: Env, s: Exec)
    requires Inv(s)
    ensures Inv(Refilled(env, s)) && (Refilled(env, s).queue != [] ==> Inv(Polled(env, Refilled(env, s))))
  {
    RefilledKeeps(env, s);
    if Refilled(env, s).queue != [] {
      PolledKeeps(env, Refilled(env, s));
    }
  }

  lemma PollLoopUnfolds(env: Env, budget: nat, s: Exec, count: nat)
    ensures ExecModel.PollLoop(env, budget, s, count) ==
      if count >= budget then Loop(s, count)
      else if Refilled(env, s).queue == [] then Loop(Refilled(env, s), count)
      else ExecModel.PollLoop(env, budget, Polled(env, Refilled(env, s)), count + 1)
  {
  }

  lemma HeadAndRest(r: Exec, s: Exec, t: nat)
    requires r.queue != [] && t == r.queue[0] && s == r.(queue := r.queue[1..])
    ensures s.(queue := [t] + s.queue) == r
  {
    assert [t] + r.queue[1..] == r.queue;
  }

  lemma AdmittedQueue(s: Exec)
    ensures Accepts(s).Some? ==> Admitted(s).queue != []
    ensures Accepts(s) == None ==> Admitted(s).queue == s.queue
  {
  }

  lemma {:induction false} AffectedTables(s: Exec, effects: seq<Effect>)
    ensures AllAffected(s, effects).queue == s.queue && AllAffected(s, effects).slab == s.slab
    ensures AllAffected(s, effects).log == s.log
  {
    hide Registered, Deregistered;
    if effects != [] {
      AffectedTables(s, effects[..|effects| - 1]);
    }
  }
}
