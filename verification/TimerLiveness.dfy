/** From a registered timer to the poll of its task, across ticks of the whole executor. */
module TimerLiveness {
  import opened TimerRuns
  import opened WakeModel
  import opened ReactorModel
  import opened ExecLog
  import opened ExecModel
  import opened ExecInvariant
  import opened BoundedWaiting
  import opened WakeDelivery
  import opened WakeServed

  /** Timer `rid` is registered, not cancelled, due at `d`, and will call `k`. */
  predicate Set(t: Reactive, rid: nat, d: nat, k: Waker)
  {
    rid in Live(t) && Live(t)[rid] == d && rid in t.slots && t.slots[rid] == TimerSlot(d, k)
  }

  /** No poll from log position `from` on cancels `rid`. */
  ghost predicate NeverCancelled(env: Env, from: nat, rid: nat)
  {
    forall i: nat :: from <= i ==> DeregisterTimer(rid) !in env(i).effects
  }

  /** Registering sets the timer under the id the caller gets back. */
  lemma RegisteringSets(s: Exec, d: nat, k: Waker)
    requires Calm(s) && s.timers.now < d && RegisteredId(s.timers, d).Some?
    ensures Set(Affected(s, RegisterTimer(d, k)).timers, RegisteredId(s.timers, d).value, d, k)
  {
    hide Live, Registered;
    RegisterIsInsert(s.timers, d, k);
  }

  // ---- a set timer stays set while tasks are polled ----

  lemma AffectedKeepsSet(s: Exec, e: Effect, rid: nat, d: nat, k: Waker)
    requires Calm(s) && Set(s.timers, rid, d, k) && e != DeregisterTimer(rid)
    ensures Set(Affected(s, e).timers, rid, d, k)
  {
    hide Live, Registered, Deregistered, NoneLost, Consistent;
    match e
    case RegisterTimer(d', k') =>
      if s.timers.now < d' { RegisterIsInsert(s.timers, d', k'); }
    case DeregisterTimer(r) =>
      if !(r in s.timers.slots && s.timers.slots[r].IoSlot?) { DeregisterIsRemove(s.timers, r); }
    case _ =>
  }

  lemma {:induction false} AllAffectedKeepsSet(s: Exec, effects: seq<Effect>, rid: nat, d: nat, k: Waker)
    requires Calm(s) && Set(s.timers, rid, d, k) && DeregisterTimer(rid) !in effects
    ensures Set(AllAffected(s, effects).timers, rid, d, k)
  {
    hide Calm, Set, Affected;
    if effects != [] {
      var m := |effects| - 1;
      assert effects[m] in effects;
      AllAffectedKeepsSet(s, effects[..m], rid, d, k);
      AllAffectedKeeps(s, effects[..m]);
      AffectedKeepsSet(AllAffected(s, effects[..m]), effects[m], rid, d, k);
    }
  }

  lemma PolledKeepsSet(env: Env, s: Exec, rid: nat, d: nat, k: Waker)
    requires Inv(s) && s.queue != [] && Set(s.timers, rid, d, k) && NeverCancelled(env, |s.log|, rid)
    ensures Set(Polled(env, s).timers, rid, d, k)
  {
    hide Set, Recorded, Consistent, NoneLost, AllAffected;
    var t := s.queue[0];
    assert s.queue == [t] + s.queue[1..];
    HeadTaken(s.wakes, t, s.queue[1..], s.ledger);
    if t in s.slab {
      var c := s.(queue := s.queue[1..], wakes := Cleared(s.wakes, t), slab := s.slab - {t});
      AllAffectedKeepsSet(c, env(|s.log|).effects, rid, d, k);
    }
  }

  lemma {:induction false} PollLoopKeepsSet(env: Env, budget: nat, s: Exec, count: nat, rid: nat, d: nat, k: Waker)
    requires Inv(s) && Set(s.timers, rid, d, k) && NeverCancelled(env, |s.log|, rid)
    ensures Set(PollLoop(env, budget, s, count).s.timers, rid, d, k)
    decreases budget - count
  {
    hide Inv, Set, Refilled, Polled;
    if count < budget {
      RefilledKeeps(env, s);
      var r := Refilled(env, s);
      if r.queue != [] {
        PolledKeeps(env, r);
        PolledKeepsSet(env, r, rid, d, k);
        PollLoopKeepsSet(env, budget, Polled(env, r), count + 1, rid, d, k);
      }
    }
  }

  lemma FirstLoopKeepsSet(env: Env, budget: nat, s: Exec, rid: nat, d: nat, k: Waker)
    requires Inv(s) && Set(s.timers, rid, d, k) && NeverCancelled(env, |s.log|, rid)
    ensures Set(FirstLoop(env, budget, s).s.timers, rid, d, k)
  {
    hide Inv, Set, Opened, PollLoop, AllAffected;
    CalmOf(s);
    AllAffectedKeepsSet(s, env(|s.log|).effects, rid, d, k);
    OpenedKeeps(env, s);
    PollLoopKeepsSet(env, budget, Opened(env, s), 0, rid, d, k);
  }

  // ---- the park ----

  /** A park whose clock has not reached `d` leaves the timer set; otherwise it fires it. */
  lemma ParkSetOrFires(env: Env, s: Exec, woken: seq<Wake>, rid: nat, d: nat, k: Waker)
    requires Inv(s) && Set(s.timers, rid, d, k)
    requires Enumerates(woken, AboutToFire(env, s).timers, FireClock(env, s))
    ensures FireClock(env, s) < d ==> Set(ParkedOnce(env, s, woken).timers, rid, d, k)
    ensures d <= FireClock(env, s) ==> exists i :: 0 <= i < |woken| && woken[i] == Wake(rid, k)
    ensures FireClock(env, s) < d ==> forall i :: 0 <= i < |woken| ==> woken[i].rid != rid
    ensures d <= FireClock(env, s) && !k.defer && k.task in s.ledger ==> k.task in ParkedOnce(env, s, woken).queue
  {
    hide Recorded, NoneLost, AboutToFire, ParkedOnce, Expired, FireClock, KeepsCalled, Called;
    AboutToFireKeeps(env, s);
    ParkedKeeps(env, s, woken);
    ParkedCalled(env, s, woken);
    assert FireClock(env, s) == Clock(s.timers, env(|s.log|).reading) by { FireClockIs(env, s); }
    FireOrStay(s.timers, env(|s.log|).reading, woken, rid, d, k);
    assert d <= FireClock(env, s) && !k.defer ==> FiredCalls(woken, k.task);
  }

  lemma FireClockIs(env: Env, s: Exec)
    requires Calm(s)
    ensures FireClock(env, s) == Clock(s.timers, env(|s.log|).reading)
  {
    AboutToFireKeeps(env, s);
    FlushedKeeps(s.timers);
  }

  lemma FireOrStay(t: Reactive, reading: nat, woken: seq<Wake>, rid: nat, d: nat, k: Waker)
    requires Consistent(t) && Set(t, rid, d, k)
    requires Enumerates(woken, Flushed(t), Clock(t, reading))
    ensures Clock(t, reading) < d ==> Set(Parked(t, reading), rid, d, k)
    ensures d <= Clock(t, reading) ==> exists i :: 0 <= i < |woken| && woken[i] == Wake(rid, k)
    ensures Clock(t, reading) < d ==> forall i :: 0 <= i < |woken| ==> woken[i].rid != rid
  {
    var now := Clock(t, reading);
    FlushedKeeps(t);
    ParkFiresLiveDue(t, reading);
    if d <= now {
      assert rid in Due(Flushed(t).wheel, now);
      var i :| 0 <= i < |woken| && woken[i].rid == rid;
      assert woken[i] == Wake(rid, k);
    }
  }

  // ---- ticks ----

  ghost predicate ClockReaches(env: Env, budget: nat, s: Exec, d: nat)
  {
    d <= FireClock(env, FirstLoop(env, budget, s).s)
  }

  lemma TickSetOrFires(env: Env, budget: nat, s: Exec, woken: seq<Wake>, rid: nat, d: nat, k: Waker)
    requires Inv(s) && Set(s.timers, rid, d, k) && NeverCancelled(env, |s.log|, rid)
    requires FiresWhatIsDue(env, budget, s, woken)
    ensures !ClockReaches(env, budget, s, d) ==> Set(Tick(env, budget, s, woken).timers, rid, d, k)
    ensures ClockReaches(env, budget, s, d) && !k.defer && k.task in s.ledger ==>
      k.task in ThroughPark(env, budget, s, woken).queue
  {
    hide Inv, Set, FirstLoop, ParkedOnce, PollLoop, AboutToFire, FireClock, Enumerates;
    FirstLoopKeeps(env, budget, s);
    FirstLoopKeepsSet(env, budget, s, rid, d, k);
    ParkSetOrFires(env, FirstLoop(env, budget, s).s, woken, rid, d, k);
    if !ClockReaches(env, budget, s, d) {
      ThroughParkKeeps(env, budget, s, woken);
      PollLoopKeepsSet(env, budget, ThroughPark(env, budget, s, woken), FirstLoop(env, budget, s).count, rid, d, k);
    }
  }

  // ---- runs ----

  /** In every tick the timers fired are those due, and the park reads a larger clock. */
  ghost predicate Proper(env: Env, budget: nat, s: Exec, fires: seq<seq<Wake>>)
  {
    forall i :: 0 <= i < |fires| ==> ProperAt(env, budget, Run(env, budget, s, fires[..i]), fires[i])
  }

  ghost predicate ProperAt(env: Env, budget: nat, s: Exec, woken: seq<Wake>)
  {
    && FiresWhatIsDue(env, budget, s, woken)
    && s.timers.now < FireClock(env, FirstLoop(env, budget, s).s)
  }

  lemma RunNext(env: Env, budget: nat, s: Exec, fires: seq<seq<Wake>>, i: nat)
    requires i < |fires|
    ensures Run(env, budget, s, fires[..i + 1]) == Tick(env, budget, Run(env, budget, s, fires[..i]), fires[i])
  {
    hide Tick;
    assert fires[..i + 1][..i] == fires[..i];
  }

  lemma RunNothing(env: Env, budget: nat, s: Exec)
    ensures Run(env, budget, s, []) == s
  {
  }

  /** The first tick whose park's clock reaches the deadline comes within `d - now` ticks. */
  lemma {:induction false} FiresWithin(
      env: Env, budget: nat, s: Exec, fires: seq<seq<Wake>>, rid: nat, d: nat, k: Waker)
    returns (n: nat)
    requires Inv(s) && Set(s.timers, rid, d, k) && NeverCancelled(env, |s.log|, rid)
    requires Proper(env, budget, s, fires) && |fires| >= d - s.timers.now
    ensures n < d - s.timers.now && n < |fires|
    ensures Inv(Run(env, budget, s, fires[..n])) && Set(Run(env, budget, s, fires[..n]).timers, rid, d, k)
    ensures s.log <= Run(env, budget, s, fires[..n]).log && s.ledger <= Run(env, budget, s, fires[..n]).ledger
    ensures ClockReaches(env, budget, Run(env, budget, s, fires[..n]), d)
    ensures forall i :: 0 <= i < n ==> !ClockReaches(env, budget, Run(env, budget, s, fires[..i]), d)
  {
    hide Inv, Set, Tick, FirstLoop, FiresWhatIsDue, FireClock, Run;
    n := 0;
    assert Run(env, budget, s, []) == s by { RunNothing(env, budget, s); }
    assert fires[..0] == [];
    SetAhead(s, rid, d, k);
    while !ClockReaches(env, budget, Run(env, budget, s, fires[..n]), d)
      invariant n < d - s.timers.now && n < |fires|
      invariant Inv(Run(env, budget, s, fires[..n])) && Set(Run(env, budget, s, fires[..n]).timers, rid, d, k)
      invariant s.log <= Run(env, budget, s, fires[..n]).log && s.ledger <= Run(env, budget, s, fires[..n]).ledger
      invariant s.timers.now + n <= Run(env, budget, s, fires[..n]).timers.now < d
      invariant forall i :: 0 <= i < n ==> !ClockReaches(env, budget, Run(env, budget, s, fires[..i]), d)
      decreases |fires| - n
    {
      var r := Run(env, budget, s, fires[..n]);
      assert ProperAt(env, budget, r, fires[n]);
      RunNext(env, budget, s, fires, n);
      TickSetOrFires(env, budget, r, fires[n], rid, d, k);
      TickKeeps(env, budget, r, fires[n]);
      n := n + 1;
      SetAhead(Run(env, budget, s, fires[..n]), rid, d, k);
    }
  }

  lemma SetAhead(s: Exec, rid: nat, d: nat, k: Waker)
    requires Inv(s) && Set(s.timers, rid, d, k)
    ensures s.timers.now < d
  {
  }

  /**
   End to end: a task whose timer is set for `d` and never cancelled, in a run whose parks
   read ever larger clocks, is put in the local queue at some index `p` by the first park
   whose clock reaches `d`, at most `d - now` ticks away, and is polled within
   `p / budget + 1` further ticks.
   */
  lemma TimerPolledInTime(env: Env, budget: nat, s: Exec, fires: seq<seq<Wake>>, rid: nat, d: nat, k: Waker)
    returns (n: nat, p: nat)
    requires Inv(s) && 1 <= budget && Set(s.timers, rid, d, k) && NeverCancelled(env, |s.log|, rid)
    requires !k.defer && k.task in s.ledger
    requires Proper(env, budget, s, fires) && |fires| >= d - s.timers.now
    ensures n < d - s.timers.now && n < |fires|
    ensures ClockReaches(env, budget, Run(env, budget, s, fires[..n]), d)
    ensures forall i :: 0 <= i < n ==> !ClockReaches(env, budget, Run(env, budget, s, fires[..i]), d)
    ensures
      var park := ThroughPark(env, budget, Run(env, budget, s, fires[..n]), fires[n]);
      && p < |park.queue| && park.queue[p] == k.task
      && (|fires| >= n + p / budget + 2 ==> PolledSince(Run(env, budget, s, fires).log, |park.log|, k.task))
  {
    hide Inv, Set, ThroughPark, FirstLoop, FiresWhatIsDue, FireClock, ClockReaches;
    n := FiresWithin(env, budget, s, fires, rid, d, k);
    var r := Run(env, budget, s, fires[..n]);
    assert ProperAt(env, budget, r, fires[n]);
    TickSetOrFires(env, budget, r, fires[n], rid, d, k);
    var park := ThroughPark(env, budget, r, fires[n]);
    p :| 0 <= p < |park.queue| && park.queue[p] == k.task;
    if |fires| >= n + p / budget + 2 {
      assert fires[n..][0] == fires[n];
      PolledAfterPark(env, budget, r, fires[n..], p);
      RunSplit(env, budget, s, fires, n);
    }
  }
}
