/** No poll without a cause: each is paid for by an injection, a wake, a deferral or a fired timer. */
module Causes {
  import opened Options
  import opened WakeModel
  import opened ReactorModel
  import opened ExecLog
  import opened ExecModel
  import opened ExecInvariant
  import opened TickGrammar
  import opened WakeDelivery
  import opened QueueOrder

  // ---- entries ----

  /** How often `t` stands in `q`. */
  function Count(q: seq<nat>, t: nat): nat
  {
    multiset(q)[t]
  }

  lemma CountConcat(q: seq<nat>, r: seq<nat>, t: nat)
    ensures Count(q + r, t) == Count(q, t) + Count(r, t)
  {
  }

  lemma CountOne(x: nat, t: nat)
    ensures Count([x], t) == if x == t then 1 else 0
  {
  }

  lemma CountNone(t: nat)
    ensures Count([], t) == 0
  {
  }

  /** Entries of `t` among the wakes. */
  function WakeEntries(w: Wakes, t: nat): nat
  {
    Count(w.reactorReady, t) + Count(w.taskReady, t) + Count(w.deferred, t) + Count(w.cross, t)
  }

  /** Entries of `t` in all queues; each can become one poll. */
  function Entries(s: Exec, t: nat): nat
  {
    Count(s.queue, t) + WakeEntries(s.wakes, t)
  }

  // ---- causes ----

  predicate IsWake(a: Arrival, t: nat)
  {
    a.WakeBy? && a.waker.task == t
  }

  predicate IsCause(e: Effect, t: nat)
  {
    e == Defer(t) || (e.Arrive? && IsWake(e.arrival, t))
  }

  function WakesIn(arrivals: seq<Arrival>, t: nat): nat
  {
    if arrivals == [] then 0
    else WakesIn(arrivals[..|arrivals| - 1], t) + if IsWake(arrivals[|arrivals| - 1], t) then 1 else 0
  }

  function EffectCauses(effects: seq<Effect>, t: nat): nat
  {
    if effects == [] then 0
    else EffectCauses(effects[..|effects| - 1], t) + if IsCause(effects[|effects| - 1], t) then 1 else 0
  }

  function Firings(woken: seq<Wake>, t: nat): nat
  {
    if woken == [] then 0
    else Firings(woken[..|woken| - 1], t) + if woken[|woken| - 1].waker.task == t then 1 else 0
  }

  /** How often the event at `i` woke, deferred or injected `t`; a park's timers are counted apart. */
  function CausesAt(env: Env, l: Log, i: nat, t: nat): nat
    requires i < |l|
  {
    var m := env(i);
    match l[i]
    case TickBegin => EffectCauses(m.effects, t)
    case PollTask(_, outcome) => if outcome == Invalid then 0 else EffectCauses(m.effects, t)
    case PopInjection(popped) => if popped == Some(t) then 1 else 0
    case Drain(ReactorWake, _) => WakesIn(m.before, t)
    case Park => WakesIn(m.before, t) + WakesIn(m.early, t) + WakesIn(m.during, t) + WakesIn(m.late, t)
    case _ => 0
  }

  function CausesOver(env: Env, l: Log, t: nat): nat
  {
    if l == [] then 0 else CausesOver(env, l[..|l| - 1], t) + CausesAt(env, l, |l| - 1, t)
  }

  function FiringsOver(fires: seq<seq<Wake>>, t: nat): nat
  {
    if fires == [] then 0 else FiringsOver(fires[..|fires| - 1], t) + Firings(fires[|fires| - 1], t)
  }

  function PollsOf(l: Log, t: nat): nat
  {
    if l == [] then 0
    else PollsOf(l[..|l| - 1], t) + if l[|l| - 1].PollTask? && l[|l| - 1].task == t then 1 else 0
  }

  lemma OverNext(env: Env, l: Log, e: Event, t: nat)
    ensures CausesOver(env, l + [e], t) == CausesOver(env, l, t) + CausesAt(env, l + [e], |l|, t)
    ensures PollsOf(l + [e], t) == PollsOf(l, t) + if e.PollTask? && e.task == t then 1 else 0
  {
    assert (l + [e])[..|l|] == l;
  }

  /** Entries and polls of `t` so far are covered by its causes, `fired` counting fired timers. */
  ghost predicate Covered(env: Env, s: Exec, fired: nat, t: nat)
  {
    Entries(s, t) + PollsOf(s.log, t) <= CausesOver(env, s.log, t) + fired
  }

  // ---- what adds entries ----

  lemma OneWokenEntries(w: Wakes, k: Waker, onExecutor: bool, t: nat)
    ensures WakeEntries(Woken(w, k, onExecutor), t) <= WakeEntries(w, t) + if k.task == t then 1 else 0
  {
    hide Count;
    CountOne(k.task, t);
    CountConcat(w.reactorReady, [k.task], t);
    CountConcat(w.taskReady, [k.task], t);
    CountConcat(w.deferred, [k.task], t);
    CountConcat(w.cross, [k.task], t);
  }

  lemma OneArrivedEntries(s: Exec, a: Arrival, t: nat)
    ensures Entries(Arrived(s, a), t) <= Entries(s, t) + if IsWake(a, t) then 1 else 0
    ensures Arrived(s, a).log == s.log
  {
    hide Count, Woken;
    if a.WakeBy? {
      OneWokenEntries(s.wakes, a.waker, a.onExecutor, t);
    }
  }

  lemma {:induction false} ArrivedEntries(s: Exec, arrivals: seq<Arrival>, t: nat)
    ensures Entries(AllArrived(s, arrivals), t) <= Entries(s, t) + WakesIn(arrivals, t)
    ensures AllArrived(s, arrivals).log == s.log
  {
    hide Entries, Arrived, IsWake;
    if arrivals != [] {
      var m := |arrivals| - 1;
      ArrivedEntries(s, arrivals[..m], t);
      OneArrivedEntries(AllArrived(s, arrivals[..m]), arrivals[m], t);
    }
  }

  lemma OneAffectedEntries(s: Exec, e: Effect, t: nat)
    ensures Entries(Affected(s, e), t) <= Entries(s, t) + if IsCause(e, t) then 1 else 0
    ensures Affected(s, e).log == s.log
  {
    hide Count, Arrived, Registered, Deregistered, IsWake;
    match e
    case Arrive(a) => OneArrivedEntries(s, a, t);
    case Defer(x) =>
      CountOne(x, t);
      CountConcat(s.wakes.deferred, [x], t);
    case _ =>
  }

  lemma {:induction false} AffectedEntries(s: Exec, effects: seq<Effect>, t: nat)
    ensures Entries(AllAffected(s, effects), t) <= Entries(s, t) + EffectCauses(effects, t)
    ensures AllAffected(s, effects).log == s.log
  {
    hide Entries, Affected, IsCause;
    if effects != [] {
      var m := |effects| - 1;
      AffectedEntries(s, effects[..m], t);
      OneAffectedEntries(AllAffected(s, effects[..m]), effects[m], t);
    }
  }

  lemma {:induction false} FiredEntries(w: Wakes, woken: seq<Wake>, t: nat)
    ensures WakeEntries(AllWoken(w, woken), t) <= WakeEntries(w, t) + Firings(woken, t)
  {
    hide WakeEntries, Woken;
    if woken != [] {
      var m := |woken| - 1;
      FiredEntries(w, woken[..m], t);
      OneWokenEntries(AllWoken(w, woken[..m]), woken[m].waker, true, t);
    }
  }

  // ---- what moves entries ----

  lemma KeptCount(ids: seq<nat>, known: set<nat>, t: nat)
    ensures Count(Kept(ids, known), t) <= Count(ids, t)
  {
    hide Sifted;
    var _ := KeptIsSifted(ids, known);
  }

  lemma {:induction false} PushedEntries(w: Wakes, ids: seq<nat>, t: nat)
    ensures WakeEntries(PushedAll(w, ids), t) <= WakeEntries(w, t) + Count(ids, t)
  {
    hide Count, WakeEntries, PushedTask;
    if ids != [] {
      var m := |ids| - 1;
      PushedEntries(w, ids[..m], t);
      OneWokenEntries(PushedAll(w, ids[..m]), Waker(ids[m], ByTask, false), true, t);
      assert ids == ids[..m] + [ids[m]];
      CountConcat(ids[..m], [ids[m]], t);
      CountOne(ids[m], t);
    }
  }

  lemma CrossEntries(w: Wakes, t: nat)
    ensures WakeEntries(CrossDrained(w), t) <= WakeEntries(w, t)
  {
    hide Count, PushedAll;
    PushedEntries(w, w.cross, t);
    CrossStays(w, w.cross);
    CountNone(t);
  }

  lemma {:induction false} CrossStays(w: Wakes, ids: seq<nat>)
    ensures PushedAll(w, ids).cross == w.cross
  {
    if ids != [] {
      CrossStays(w, ids[..|ids| - 1]);
    }
  }

  lemma ReactorTakenEntries(s: Exec, t: nat)
    ensures Entries(ReactorTaken(s), t) <= Entries(s, t)
  {
    hide Count, Kept;
    KeptCount(s.wakes.reactorReady, s.ledger, t);
    CountConcat(s.queue, Kept(s.wakes.reactorReady, s.ledger), t);
    CountNone(t);
  }

  lemma TaskDrainedEntries(s: Exec, t: nat)
    ensures Entries(TaskDrained(s), t) <= Entries(s, t)
  {
    hide Count, Kept, CrossDrained;
    var w := CrossDrained(s.wakes);
    CrossEntries(s.wakes, t);
    KeptCount(w.taskReady, s.ledger, t);
    CountConcat(s.queue, Kept(w.taskReady, s.ledger), t);
    CountNone(t);
  }

  lemma DeferredDrainedEntries(s: Exec, t: nat)
    ensures Entries(DeferredDrained(s), t) <= Entries(s, t)
  {
    hide Count, Kept;
    KeptCount(s.wakes.deferred, s.ledger, t);
    CountConcat(s.queue, Kept(s.wakes.deferred, s.ledger), t);
    CountNone(t);
  }

  lemma AdmittedEntries(s: Exec, t: nat)
    ensures Entries(Admitted(s), t) <= Entries(s, t) + if Accepts(s) == Some(t) then 1 else 0
  {
    hide Count;
    if Accepts(s).Some? {
      CountConcat(s.queue, [Accepts(s).value], t);
      CountOne(Accepts(s).value, t);
    }
  }

  lemma HeadEntries(s: Exec, t: nat)
    requires s.queue != []
    ensures
      var c := s.(queue := s.queue[1..], wakes := Cleared(s.wakes, s.queue[0]));
      Entries(c, t) + (if s.queue[0] == t then 1 else 0) == Entries(s, t)
  {
    hide Count;
    assert s.queue == [s.queue[0]] + s.queue[1..];
    CountConcat([s.queue[0]], s.queue[1..], t);
    CountOne(s.queue[0], t);
  }

  // ---- phases ----

  lemma ReactorDrainedCovered(env: Env, s: Exec, fired: nat, t: nat)
    requires Inv(s) && Covered(env, s, fired, t)
    ensures Covered(env, ReactorDrained(env, s), fired, t)
  {
    hide Inv, Entries, AllArrived, ReactorTaken, Kept;
    ReactorDrainedLogOf(env, s);
    var r := ReactorDrained(env, s);
    ArrivedEntries(s, env(|s.log|).before, t);
    ReactorTakenEntries(AllArrived(s, env(|s.log|).before), t);
    ReactorDrainEvent(env, s);
    OverNext(env, s.log, r.log[|s.log|], t);
  }

  lemma ReactorDrainEvent(env: Env, s: Exec)
    requires Inv(s)
    ensures
      var l := ReactorDrained(env, s).log;
      && |l| == |s.log| + 1 && l == s.log + [l[|s.log|]] && l[|s.log|].Drain? && l[|s.log|].source == ReactorWake
  {
    hide ReactorDrained, Recorded, NoneLost, Consistent;
    ReactorDrainedLog(env, s);
  }

  lemma TaskDrainedCovered(env: Env, s: Exec, fired: nat, t: nat)
    requires Covered(env, s, fired, t)
    ensures Covered(env, TaskDrained(s), fired, t)
  {
    hide Entries, TaskDrained;
    TaskDrainedLog(s);
    TaskDrainedEntries(s, t);
    OverNext(env, s.log, TaskDrained(s).log[|s.log|], t);
  }

  lemma AdmittedCovered(env: Env, s: Exec, fired: nat, t: nat)
    requires Covered(env, s, fired, t)
    ensures Covered(env, Admitted(s), fired, t)
  {
    hide Entries, Admitted, Accepts;
    AdmittedPlain(s);
    AdmittedEntries(s, t);
    OverNext(env, s.log, PopInjection(Accepts(s)), t);
  }

  lemma {:induction false} AllPoppedCovered(env: Env, s: Exec, fired: nat, t: nat)
    requires Covered(env, s, fired, t)
    ensures Covered(env, AllPopped(s), fired, t)
    decreases |s.channel|
  {
    hide Covered;
    AdmittedCovered(env, s, fired, t);
    if Accepts(s).Some? {
      AllPoppedCovered(env, Admitted(s), fired, t);
    }
  }

  lemma RefilledCovered(env: Env, s: Exec, fired: nat, t: nat)
    requires Inv(s) && Covered(env, s, fired, t)
    ensures Covered(env, Refilled(env, s), fired, t)
  {
    hide Inv, Covered, ReactorDrained, TaskDrained, Admitted;
    if s.queue == [] {
      ReactorDrainedCovered(env, s, fired, t);
      TaskDrainedCovered(env, ReactorDrained(env, s), fired, t);
      AdmittedCovered(env, TaskDrained(ReactorDrained(env, s)), fired, t);
    }
  }

  lemma PolledCovered(env: Env, s: Exec, fired: nat, t: nat)
    requires Inv(s) && s.queue != [] && Covered(env, s, fired, t)
    ensures Covered(env, Polled(env, s), fired, t)
  {
    hide Inv, Count, AllAffected, EffectCauses, PollsOf, CausesOver;
    var head := s.queue[0];
    var c := s.(queue := s.queue[1..], wakes := Cleared(s.wakes, head));
    HeadEntries(s, t);
    var p := Polled(env, s);
    AffectedEntries(c.(slab := s.slab - {head}), env(|s.log|).effects, t);
    OverNext(env, s.log, p.log[|s.log|], t);
  }

  lemma {:induction false} LoopCovered(env: Env, budget: nat, s: Exec, count: nat, fired: nat, t: nat)
    requires Inv(s) && Covered(env, s, fired, t)
    ensures Covered(env, PollLoop(env, budget, s, count).s, fired, t)
    decreases budget - count
  {
    hide Inv, Covered, Refilled, Polled;
    if count < budget {
      RefilledKeeps(env, s);
      RefilledCovered(env, s, fired, t);
      var r := Refilled(env, s);
      if r.queue != [] {
        PolledKeeps(env, r);
        PolledCovered(env, r, fired, t);
        LoopCovered(env, budget, Polled(env, r), count + 1, fired, t);
      }
    }
  }

  lemma OpenedCovered(env: Env, s: Exec, fired: nat, t: nat)
    requires Inv(s) && Covered(env, s, fired, t)
    ensures Covered(env, Opened(env, s), fired, t)
  {
    hide Inv, Entries, AllAffected, AllPopped, Kept, EffectCauses, PollsOf, CausesOver;
    var a := AllAffected(s, env(|s.log|).effects);
    AffectedEntries(s, env(|s.log|).effects, t);
    OverNext(env, s.log, TickBegin, t);
    var b := Logged(a, TickBegin);
    LoggedEntries(a, TickBegin, t);
    DeferredDrainedEntries(b, t);
    var d := DeferredDrained(b);
    OverNext(env, b.log, d.log[|b.log|], t);
    AllPoppedCovered(env, d, fired, t);
  }

  lemma LoggedEntries(s: Exec, e: Event, t: nat)
    ensures Entries(Logged(s, e), t) == Entries(s, t)
  {
  }

  lemma SleepingEntries(env: Env, s: Exec, t: nat)
    ensures
      var m := env(|s.log|);
      && Entries(AboutToFire(env, s), t)
         <= Entries(s, t) + WakesIn(m.before, t) + WakesIn(m.early, t) + WakesIn(m.during, t)
      && AboutToFire(env, s).log == s.log
  {
    hide Count, AllArrived, CrossDrained, Flushed, WakesIn;
    var m := env(|s.log|);
    ArrivedEntries(s, m.before, t);
    var b := AtReset(env, s);
    ArrivedEntries(b.(wakes := b.wakes.(interrupted := false)), m.early, t);
    var a := Listening(env, s);
    CrossEntries(a.wakes, t);
    var p := Prepared(env, s);
    ArrivedEntries(p.(timers := Flushed(p.timers)), m.during, t);
  }

  lemma FiredCovered(env: Env, s: Exec, woken: seq<Wake>, fired: nat, t: nat)
    requires Inv(s) && Covered(env, s, fired, t)
    ensures Covered(env, Fired(env, s, woken), fired + Firings(woken, t), t)
  {
    hide Inv, Count, AllArrived, AboutToFire, AllWoken, Expired, FireClock, PollsOf, CausesOver, WakesIn, Firings;
    SleepingEntries(env, s, t);
    var f := AboutToFire(env, s);
    FiredEntries(f.wakes, woken, t);
    var x := f.(timers := Expired(f.timers, FireClock(env, s)), wakes := AllWoken(f.wakes, woken));
    ArrivedEntries(x, env(|s.log|).late, t);
    LoggedEntries(AllArrived(x, env(|s.log|).late), Park, t);
    OverNext(env, s.log, Park, t);
    assert Fired(env, s, woken).log == s.log + [Park];
  }

  lemma ParkedCovered(env: Env, s: Exec, woken: seq<Wake>, fired: nat, t: nat)
    requires Inv(s) && Covered(env, s, fired, t)
    ensures Covered(env, ParkedOnce(env, s, woken), fired + Firings(woken, t), t)
  {
    hide Inv, Covered, Fired, ReactorDrained, TaskDrained, Parked, FireClock, Firings;
    FiredKeeps(env, s, woken);
    FiredCovered(env, s, woken, fired, t);
    ReactorDrainedCovered(env, Fired(env, s, woken), fired + Firings(woken, t), t);
    TaskDrainedCovered(env, ReactorDrained(env, Fired(env, s, woken)), fired + Firings(woken, t), t);
  }

  lemma TickCovered(env: Env, budget: nat, s: Exec, woken: seq<Wake>, fired: nat, t: nat)
    requires Inv(s) && Covered(env, s, fired, t)
    ensures Covered(env, Tick(env, budget, s, woken), fired + Firings(woken, t), t)
  {
    hide Inv, Entries, Opened, PollLoop, ParkedOnce, Parked, FireClock, Firings, PollsOf, CausesOver;
    OpenedKeeps(env, s);
    OpenedCovered(env, s, fired, t);
    PollLoopKeeps(env, budget, Opened(env, s), 0);
    LoopCovered(env, budget, Opened(env, s), 0, fired, t);
    var r := FirstLoop(env, budget, s);
    ParkedKeeps(env, r.s, woken);
    ParkedCovered(env, r.s, woken, fired, t);
    var p := ThroughPark(env, budget, s, woken);
    LoopCovered(env, budget, p, r.count, fired + Firings(woken, t), t);
    var f := PollLoop(env, budget, p, r.count).s;
    LoggedEntries(f, TickEnd, t);
    OverNext(env, f.log, TickEnd, t);
  }

  /**
   No poll comes from nowhere: over every run the polls of a task, and its entries left in
   the queues, are together at most its injection plus the wakes, deferrals and fired timers
   that named it. A task nobody wakes is polled once.
   */
  lemma {:induction false} PollsHaveCauses(env: Env, budget: nat, fires: seq<seq<Wake>>, t: nat)
    ensures
      var s := Run(env, budget, IDLE, fires);
      PollsOf(s.log, t) + Entries(s, t) <= CausesOver(env, s.log, t) + FiringsOver(fires, t)
  {
    hide Inv, Tick, CausesOver, PollsOf, Entries;
    if fires == [] {
      NothingYet(env, t);
    } else {
      var m := |fires| - 1;
      PollsHaveCauses(env, budget, fires[..m], t);
      IdleInv();
      RunKeeps(env, budget, IDLE, fires[..m]);
      TickCovered(env, budget, Run(env, budget, IDLE, fires[..m]), fires[m], FiringsOver(fires[..m], t), t);
    }
  }

  lemma NothingYet(env: Env, t: nat)
    ensures Entries(IDLE, t) == 0 && PollsOf([], t) == 0 && CausesOver(env, [], t) == 0
  {
  }
}
