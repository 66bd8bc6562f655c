/** What every phase of a tick, and so every run, keeps. */
module ExecInvariant {
  import opened Options
  import opened WakeModel
  import opened ReactorModel
  import opened ExecLog
  import opened ExecModel

  /** No wake is lost and the reactor is consistent. */
  ghost predicate Calm(s: Exec)
  {
    NoneLost(s.wakes, s.queue, s.ledger) && Consistent(s.timers)
  }

  /** Queue, slab and ledger match the log, no wake is lost, and the reactor is consistent. */
  ghost predicate Inv(s: Exec)
  {
    Recorded(s.queue, s.slab, s.ledger, s.log) && Calm(s)
  }

  /** Only wakes, channel and timers may differ, and the channel only grew. */
  ghost predicate SameTables(s: Exec, s': Exec)
  {
    s'.queue == s.queue && s'.slab == s.slab && s'.ledger == s.ledger && s'.log == s.log && s.channel <= s'.channel
  }

  lemma IdleInv()
    ensures Inv(IDLE)
  {
  }

  // ---- effects ----

  lemma ArrivedKeeps(s: Exec, a: Arrival)
    requires Calm(s)
    ensures Calm(Arrived(s, a)) && SameTables(s, Arrived(s, a)) && Arrived(s, a).timers == s.timers
  {
    hide Consistent, NoneLost;
    if a.WakeBy? {
      WokenKeeps(s.wakes, s.queue, s.ledger, a.waker, a.onExecutor);
    } else {
      FlagsKeep(s.wakes, s.queue, s.ledger);
    }
  }

  lemma FlagsKeep(w: Wakes, queue: seq<nat>, known: set<nat>)
    requires NoneLost(w, queue, known)
    ensures NoneLost(Interrupted(w), queue, known)
    ensures NoneLost(w.(interrupted := false), queue, known)
    ensures NoneLost(w.(yielded := false), queue, known)
    ensures NoneLost(w.(signalled := false), queue, known)
  {
  }

  lemma AffectedKeeps(s: Exec, e: Effect)
    requires Calm(s)
    ensures Calm(Affected(s, e)) && SameTables(s, Affected(s, e)) && Affected(s, e).timers.now == s.timers.now
  {
    hide Consistent, NoneLost, Live, Registered, Deregistered;
    match e
    case Arrive(a) => ArrivedKeeps(s, a);
    case Defer(t) => DeferKeeps(s.wakes, s.queue, s.ledger, t);
    case RegisterTimer(d, k) =>
      if s.timers.now < d { RegisterIsInsert(s.timers, d, k); }
    case DeregisterTimer(r) =>
      if !(r in s.timers.slots && s.timers.slots[r].IoSlot?) { DeregisterIsRemove(s.timers, r); }
  }

  lemma DeferKeeps(w: Wakes, queue: seq<nat>, known: set<nat>, t: nat)
    requires NoneLost(w, queue, known)
    ensures NoneLost(DeferredCurrent(w, t), queue, known)
  {
  }

  lemma {:induction false} AllArrivedKeeps(s: Exec, arrivals: seq<Arrival>)
    requires Calm(s)
    ensures
      var s' := AllArrived(s, arrivals);
      Calm(s') && SameTables(s, s') && s'.timers == s.timers
  {
    hide Calm, Arrived;
    if arrivals != [] {
      var m := |arrivals| - 1;
      AllArrivedKeeps(s, arrivals[..m]);
      ArrivedKeeps(AllArrived(s, arrivals[..m]), arrivals[m]);
    }
  }

  lemma {:induction false} AllAffectedKeeps(s: Exec, effects: seq<Effect>)
    requires Calm(s)
    ensures
      var s' := AllAffected(s, effects);
      Calm(s') && SameTables(s, s') && s'.timers.now == s.timers.now
  {
    hide Calm, Affected;
    if effects != [] {
      var m := |effects| - 1;
      AllAffectedKeeps(s, effects[..m]);
      AffectedKeeps(AllAffected(s, effects[..m]), effects[m]);
    }
  }

  // ---- drains ----

  /** Queue and log only grew at the end; timers are untouched. */
  ghost predicate Extends(s: Exec, s': Exec)
  {
    s.queue <= s'.queue && s.log <= s'.log && s.ledger <= s'.ledger && s'.timers == s.timers
  }

  lemma EnqueuedKeeps(s: Exec, w: Wakes, source: Source, ids: seq<nat>)
    requires Recorded(s.queue, s.slab, s.ledger, s.log) && Consistent(s.timers)
    requires forall t :: t in w.notified && t in s.ledger ==> Waiting(w, s.queue, t) || t in ids
    ensures Inv(Enqueued(s.(wakes := w), source, ids)) && Extends(s, Enqueued(s.(wakes := w), source, ids))
    ensures forall t :: t in ids && t in s.ledger ==> t in Enqueued(s.(wakes := w), source, ids).queue
  {
    hide Consistent, Recorded;
    RecordDrain(s.queue, s.slab, s.ledger, s.log, source, Kept(ids, s.ledger));
  }

  lemma ReactorTakenKeeps(s: Exec)
    requires Inv(s)
    ensures Inv(ReactorTaken(s)) && Extends(s, ReactorTaken(s)) && ReactorTaken(s).channel == s.channel
    ensures ReactorTaken(s).wakes == s.wakes.(reactorReady := [])
  {
    hide Consistent, Recorded;
    EnqueuedKeeps(s, s.wakes.(reactorReady := []), ReactorWake, s.wakes.reactorReady);
  }

  lemma ReactorDrainedKeeps(env: Env, s: Exec)
    requires Inv(s)
    ensures Inv(AllArrived(s, env(|s.log|).before)) && SameTables(s, AllArrived(s, env(|s.log|).before))
    ensures Inv(ReactorDrained(env, s)) && Extends(s, ReactorDrained(env, s))
    ensures s.channel <= ReactorDrained(env, s).channel
    ensures ReactorDrained(env, s).wakes.reactorReady == []
  {
    hide Calm, Recorded, ReactorTaken, AllArrived;
    AllArrivedKeeps(s, env(|s.log|).before);
    ReactorTakenKeeps(AllArrived(s, env(|s.log|).before));
  }

  lemma TaskDrainedKeeps(s: Exec)
    requires Inv(s)
    ensures Inv(TaskDrained(s)) && Extends(s, TaskDrained(s)) && TaskDrained(s).channel == s.channel
    ensures TaskDrained(s).wakes.reactorReady == s.wakes.reactorReady && TaskDrained(s).wakes.taskReady == []
    ensures TaskDrained(s).wakes.cross == []
    ensures forall t :: t in s.wakes.cross && t in s.ledger ==>
      t in TaskDrained(s).queue || t in TaskDrained(s).wakes.reactorReady
  {
    hide Consistent, Recorded;
    CrossDrainedKeeps(s.wakes, s.queue, s.ledger);
    var w := CrossDrained(s.wakes);
    EnqueuedKeeps(s, w.(taskReady := []), TaskWake, w.taskReady);
  }

  lemma DeferredDrainedKeeps(s: Exec)
    requires Inv(s)
    ensures Inv(DeferredDrained(s)) && Extends(s, DeferredDrained(s)) && DeferredDrained(s).channel == s.channel
    ensures DeferredDrained(s).wakes == s.wakes.(deferred := [])
    ensures forall t :: t in s.wakes.deferred && t in s.ledger ==> t in DeferredDrained(s).queue
  {
    hide Consistent, Recorded;
    EnqueuedKeeps(s, s.wakes.(deferred := []), Deferred, s.wakes.deferred);
  }

  // ---- injection ----

  lemma AdmittedKeeps(s: Exec)
    requires Inv(s)
    ensures Inv(Admitted(s)) && Extends(s, Admitted(s)) && Admitted(s).wakes == s.wakes
  {
    hide Consistent, Recorded;
    if Accepts(s).Some? {
      RecordPop(s.queue, s.slab, s.ledger, s.log, Accepts(s).value);
    } else {
      RecordMark(s.queue, s.slab, s.ledger, s.log, PopInjection(None));
    }
  }

  lemma {:induction false} AllPoppedKeeps(s: Exec)
    requires Inv(s)
    ensures Inv(AllPopped(s)) && Extends(s, AllPopped(s)) && AllPopped(s).wakes == s.wakes
    decreases |s.channel|
  {
    hide Inv;
    AdmittedKeeps(s);
    if Accepts(s).Some? {
      AllPoppedKeeps(Admitted(s));
    }
  }

  // ---- choosing and polling ----

  lemma RefilledKeeps(env: Env, s: Exec)
    requires Inv(s)
    ensures Inv(Refilled(env, s)) && Extends(s, Refilled(env, s))
  {
    hide Inv;
    if s.queue == [] {
      ReactorDrainedKeeps(env, s);
      TaskDrainedKeeps(ReactorDrained(env, s));
      if TaskDrained(ReactorDrained(env, s)).queue == [] {
        AdmittedKeeps(TaskDrained(ReactorDrained(env, s)));
      }
    }
  }

  /** Taking the head and clearing its bit loses nothing: it is about to be polled. */
  lemma HeadTaken(w: Wakes, t: nat, rest: seq<nat>, known: set<nat>)
    requires NoneLost(w, [t] + rest, known)
    ensures NoneLost(Cleared(w, t), rest, known)
  {
  }

  lemma PolledKeeps(env: Env, s: Exec)
    requires Inv(s) && s.queue != []
    ensures
      var s' := Polled(env, s);
      && Inv(s') && s'.queue == s.queue[1..] && s'.ledger == s.ledger && s.channel <= s'.channel
      && s'.timers.now == s.timers.now
      && |s'.log| == |s.log| + 1 && s.log <= s'.log
      && s'.log[|s.log|].PollTask? && s'.log[|s.log|].task == s.queue[0]
  {
    hide Consistent, Recorded, NoneLost, Affected;
    var t := s.queue[0];
    assert s.queue == [t] + s.queue[1..];
    HeadTaken(s.wakes, t, s.queue[1..], s.ledger);
    var c := s.(queue := s.queue[1..], wakes := Cleared(s.wakes, t));
    if t in s.slab {
      AllAffectedKeeps(c.(slab := s.slab - {t}), env(|s.log|).effects);
      assert s.slab - {t} + {t} == s.slab;
      RecordPoll(t, s.queue[1..], s.slab, s.ledger, s.log, if env(|s.log|).ready then Ready else Pending);
    } else {
      RecordPoll(t, s.queue[1..], s.slab, s.ledger, s.log, Invalid);
    }
  }

  lemma {:induction false} PollLoopKeeps(env: Env, budget: nat, s: Exec, count: nat)
    requires Inv(s)
    ensures
      var r := PollLoop(env, budget, s, count);
      && Inv(r.s) && s.log <= r.s.log && s.ledger <= r.s.ledger && r.s.timers.now == s.timers.now
      && count <= r.count && (count <= budget ==> r.count <= budget)
    decreases budget - count
  {
    hide Inv, Refilled, Polled;
    if count < budget {
      RefilledKeeps(env, s);
      var r := Refilled(env, s);
      if r.queue != [] {
        PolledKeeps(env, r);
        PollLoopKeeps(env, budget, Polled(env, r), count + 1);
      }
    }
  }

  // ---- parking ----

  lemma {:induction false} AllWokenKeeps(w: Wakes, queue: seq<nat>, known: set<nat>, woken: seq<Wake>)
    requires NoneLost(w, queue, known)
    ensures NoneLost(AllWoken(w, woken), queue, known)
  {
    hide NoneLost;
    if woken != [] {
      var m := |woken| - 1;
      AllWokenKeeps(w, queue, known, woken[..m]);
      WokenKeeps(AllWoken(w, woken[..m]), queue, known, woken[m].waker, true);
    }
  }

  lemma ListeningKeeps(env: Env, s: Exec)
    requires Calm(s)
    ensures Calm(Listening(env, s)) && SameTables(s, Listening(env, s)) && Listening(env, s).timers == s.timers
  {
    hide Consistent, NoneLost;
    AllArrivedKeeps(s, env(|s.log|).before);
    var b := AtReset(env, s);
    FlagsKeep(b.wakes, b.queue, b.ledger);
    AllArrivedKeeps(b.(wakes := b.wakes.(interrupted := false)), env(|s.log|).early);
  }

  lemma PreparedKeeps(env: Env, s: Exec)
    requires Calm(s)
    ensures Calm(Prepared(env, s)) && SameTables(s, Prepared(env, s)) && Prepared(env, s).timers == s.timers
    ensures Prepared(env, s).wakes.cross == []
    ensures forall t :: t in Listening(env, s).wakes.cross && t in s.ledger ==>
      Waiting(Prepared(env, s).wakes, s.queue, t)
  {
    hide Consistent, NoneLost, CrossDrained, Listening;
    ListeningKeeps(env, s);
    var a := Listening(env, s);
    CrossDrainedKeeps(a.wakes, a.queue, a.ledger);
    FlagsKeep(CrossDrained(a.wakes), a.queue, a.ledger);
  }

  lemma AboutToFireKeeps(env: Env, s: Exec)
    requires Calm(s)
    ensures Calm(AboutToFire(env, s)) && SameTables(s, AboutToFire(env, s))
    ensures AboutToFire(env, s).timers == Flushed(s.timers)
  {
    hide Consistent, NoneLost, Prepared, Flushed, Live;
    PreparedKeeps(env, s);
    FlushedKeeps(s.timers);
    var p := Prepared(env, s);
    AllArrivedKeeps(p.(timers := Flushed(p.timers)), env(|s.log|).during);
    FlagsKeep(Sleeping(env, s).wakes, s.queue, s.ledger);
  }

  lemma FiredKeeps(env: Env, s: Exec, woken: seq<Wake>)
    requires Inv(s)
    ensures
      var s' := Fired(env, s, woken);
      && Inv(s') && s'.queue == s.queue && s'.ledger == s.ledger && s'.log == s.log + [Park]
      && s'.timers == Parked(s.timers, env(|s.log|).reading) && s'.timers.now == FireClock(env, s)
  {
    hide Consistent, NoneLost, Recorded, AboutToFire, Flushed, Expired, AllWoken, Live;
    AboutToFireKeeps(env, s);
    var f := AboutToFire(env, s);
    FlushedKeeps(s.timers);
    ParkFiresLiveDue(s.timers, env(|s.log|).reading);
    AllWokenKeeps(f.wakes, f.queue, f.ledger, woken);
    AllArrivedKeeps(
      f.(timers := Expired(f.timers, FireClock(env, s)), wakes := AllWoken(f.wakes, woken)), env(|s.log|).late);
    RecordMark(s.queue, s.slab, s.ledger, s.log, Park);
  }

  lemma ParkedKeeps(env: Env, s: Exec, woken: seq<Wake>)
    requires Inv(s)
    ensures
      var s' := ParkedOnce(env, s, woken);
      && Inv(s') && s.queue <= s'.queue && s.ledger <= s'.ledger
      && s.log + [Park] <= s'.log && s'.timers == Parked(s.timers, env(|s.log|).reading)
      && s'.timers.now == FireClock(env, s)
      && s'.wakes.reactorReady == [] && s'.wakes.taskReady == [] && s'.wakes.cross == []
  {
    hide Inv, Fired, Parked, FireClock;
    FiredKeeps(env, s, woken);
    ReactorDrainedKeeps(env, Fired(env, s, woken));
    TaskDrainedKeeps(ReactorDrained(env, Fired(env, s, woken)));
  }

  // ---- ticks and runs ----

  lemma OpenedKeeps(env: Env, s: Exec)
    requires Inv(s)
    ensures
      var s' := Opened(env, s);
      && Inv(s') && s.queue <= s'.queue && s.ledger <= s'.ledger && s.log + [TickBegin] <= s'.log
      && s'.timers == AllAffected(s, env(|s.log|).effects).timers
  {
    hide Calm, AllAffected, Recorded;
    AllAffectedKeeps(s, env(|s.log|).effects);
    RecordMark(s.queue, s.slab, s.ledger, s.log, TickBegin);
    var b := Logged(AllAffected(s, env(|s.log|).effects), TickBegin);
    assert Calm(b) by { LoggedCalm(AllAffected(s, env(|s.log|).effects), TickBegin); }
    DeferredDrainedKeeps(b);
    AllPoppedKeeps(DeferredDrained(b));
  }

  lemma LoggedCalm(s: Exec, e: Event)
    requires Calm(s)
    ensures Calm(Logged(s, e))
  {
  }

  lemma FirstLoopKeeps(env: Env, budget: nat, s: Exec)
    requires Inv(s)
    ensures
      var r := FirstLoop(env, budget, s);
      Inv(r.s) && s.ledger <= r.s.ledger && s.log < r.s.log && r.count <= budget && r.s.timers.now == s.timers.now
  {
    hide Inv, Opened, AllAffected;
    OpenedKeeps(env, s);
    CalmOf(s);
    AllAffectedKeeps(s, env(|s.log|).effects);
    PollLoopKeeps(env, budget, Opened(env, s), 0);
  }

  lemma CalmOf(s: Exec)
    requires Inv(s)
    ensures Calm(s) && Consistent(s.timers)
  {
  }

  lemma ThroughParkKeeps(env: Env, budget: nat, s: Exec, woken: seq<Wake>)
    requires Inv(s)
    ensures
      var p := ThroughPark(env, budget, s, woken);
      && Inv(p) && s.ledger <= p.ledger && s.log < p.log
      && p.timers.now == FireClock(env, FirstLoop(env, budget, s).s)
      && p.wakes.reactorReady == [] && p.wakes.taskReady == [] && p.wakes.cross == []
  {
    hide Inv, FirstLoop, ParkedOnce, Parked, FireClock;
    FirstLoopKeeps(env, budget, s);
    ParkedKeeps(env, FirstLoop(env, budget, s).s, woken);
  }

  /** A whole tick keeps the invariant, whatever the environment does. */
  lemma TickKeeps(env: Env, budget: nat, s: Exec, woken: seq<Wake>)
    requires Inv(s)
    ensures
      var s' := Tick(env, budget, s, woken);
      && Inv(s') && s.ledger <= s'.ledger && s.log < s'.log
      && s'.timers.now == FireClock(env, FirstLoop(env, budget, s).s)
      && ThroughPark(env, budget, s, woken).log <= s'.log
  {
    hide Calm, FirstLoop, ThroughPark, PollLoop, FireClock, Recorded;
    ThroughParkKeeps(env, budget, s, woken);
    FirstLoopKeeps(env, budget, s);
    var r := PollLoop(env, budget, ThroughPark(env, budget, s, woken), FirstLoop(env, budget, s).count);
    PollLoopKeeps(env, budget, ThroughPark(env, budget, s, woken), FirstLoop(env, budget, s).count);
    RecordMark(r.s.queue, r.s.slab, r.s.ledger, r.s.log, TickEnd);
    LoggedCalm(r.s, TickEnd);
  }

  /**
   Every state of every run: the queue is the log's replay, the ledger is what was
   injected, the slab is what was injected and not completed, every poll took the replayed
   head and was Invalid exactly for a completed task, no id was delivered twice, and no
   wake is lost.
   */
  lemma {:induction false} RunKeeps(env: Env, budget: nat, s: Exec, fires: seq<seq<Wake>>)
    requires Inv(s)
    ensures Inv(Run(env, budget, s, fires))
    ensures s.log <= Run(env, budget, s, fires).log && s.ledger <= Run(env, budget, s, fires).ledger
  {
    hide Inv, Tick;
    if fires != [] {
      var m := |fires| - 1;
      RunKeeps(env, budget, s, fires[..m]);
      TickKeeps(env, budget, Run(env, budget, s, fires[..m]), fires[m]);
    }
  }
}
