/** A cancelled timer is gone: over the rest of the run no park fires it. */
module CancelledTimers {
  import opened Options
  import opened WakeModel
  import opened ReactorModel
  import opened ExecLog
  import opened ExecModel
  import opened ExecInvariant
  import opened TickGrammar
  import opened WakeDelivery
  import opened WakeServed
  import opened TimerRegistration

  /** Cancelling in the executor removes exactly that timer, unless the id is an IO source's. */
  lemma CancelRemoves(s: Exec, rid: nat)
    requires Calm(s) && (rid in s.timers.slots ==> s.timers.slots[rid].TimerSlot?)
    ensures Live(Affected(s, DeregisterTimer(rid)).timers) == Live(s.timers) - {rid}
    ensures Affected(s, DeregisterTimer(rid)) == s.(timers := Affected(s, DeregisterTimer(rid)).timers)
  {
    hide Live, Deregistered;
    DeregisterIsRemove(s.timers, rid);
  }

  /** `rid` was given out once and names no live timer now. */
  predicate Dead(t: Reactive, rid: nat)
  {
    rid !in Live(t) && rid < t.next
  }

  /** Effect `e` registers a timer that is handed the id `rid`. */
  predicate Hands(t: Reactive, e: Effect, rid: nat)
  {
    e.RegisterTimer? && t.now < e.deadline && RegisteredId(t, e.deadline) == Some(rid)
  }

  // ---- a dead id stays dead until a registration is handed it ----

  lemma NextGrows(t: Reactive, d: nat, k: Waker, rid: nat)
    ensures t.next <= Registered(t, d, k).next && t.next == Deregistered(t, rid).next
    ensures forall r :: RegisteredId(t, d) == Some(r) && !Reuses(t, d) ==> r == t.next
  {
  }

  lemma EffectKeepsDead(s: Exec, e: Effect, rid: nat)
    requires Calm(s) && Dead(s.timers, rid) && !Hands(s.timers, e, rid)
    ensures Dead(Affected(s, e).timers, rid)
  {
    hide Live, Registered, Deregistered, NoneLost, Consistent;
    match e
    case RegisterTimer(d, k) =>
      if s.timers.now < d {
        RegisterIsInsert(s.timers, d, k);
        NextGrows(s.timers, d, k, rid);
      }
    case DeregisterTimer(r) =>
      if !(r in s.timers.slots && s.timers.slots[r].IoSlot?) {
        DeregisterIsRemove(s.timers, r);
        NextGrows(s.timers, 0, Waker(0, ByTask, false), r);
      }
    case _ =>
  }

  /** From effect `j` on, none of `effects`, applied in turn to `c`, registers under `rid`. */
  ghost predicate QuietEffects(c: Exec, effects: seq<Effect>, j: nat, rid: nat)
  {
    forall k :: j <= k < |effects| ==> !Hands(AllAffected(c, effects[..k]).timers, effects[k], rid)
  }

  lemma {:induction false} EffectsKeepDead(c: Exec, effects: seq<Effect>, j: nat, rid: nat)
    requires Calm(c) && j <= |effects| && QuietEffects(c, effects, j, rid)
    requires Dead(AllAffected(c, effects[..j]).timers, rid)
    ensures Dead(AllAffected(c, effects).timers, rid)
    decreases |effects| - j
  {
    hide Calm, Affected, Hands, Dead;
    if j == |effects| {
      assert effects[..j] == effects;
    } else {
      AllAffectedKeeps(c, effects[..j]);
      OneMore(c, effects, j);
      assert !Hands(AllAffected(c, effects[..j]).timers, effects[j], rid);
      EffectKeepsDead(AllAffected(c, effects[..j]), effects[j], rid);
      EffectsKeepDead(c, effects, j + 1, rid);
    }
  }

  /** From its effect `j` on, the poll taken in `x` registers nothing under `rid`. */
  ghost predicate QuietPoll(env: Env, x: Exec, j: nat, rid: nat)
  {
    x.queue != [] ==>
      forall k :: j <= k < |env(|x.log|).effects| ==>
        !Hands(Midway(env, x, k).timers, env(|x.log|).effects[k], rid)
  }

  lemma PollKeepsDead(env: Env, x: Exec, j: nat, rid: nat)
    requires Inv(x) && x.queue != [] && x.queue[0] in x.slab && QuietPoll(env, x, j, rid)
    requires j <= |env(|x.log|).effects| && Dead(Midway(env, x, j).timers, rid)
    ensures Dead(Polled(env, x).timers, rid)
  {
    hide Recorded, Consistent, NoneLost, Dead, AllAffected, Hands;
    var t, effects := x.queue[0], env(|x.log|).effects;
    assert x.queue == [t] + x.queue[1..];
    HeadTaken(x.wakes, t, x.queue[1..], x.ledger);
    var c := x.(queue := x.queue[1..], wakes := Cleared(x.wakes, t), slab := x.slab - {t});
    assert QuietEffects(c, effects, j, rid) by {
      forall k | j <= k < |effects|
        ensures !Hands(AllAffected(c, effects[..k]).timers, effects[k], rid)
      {
        assert Midway(env, x, k) == AllAffected(c, effects[..k]);
      }
    }
    EffectsKeepDead(c, effects, j, rid);
  }

  lemma WholePollKeepsDead(env: Env, x: Exec, rid: nat)
    requires Inv(x) && x.queue != [] && Dead(x.timers, rid)
    requires x.queue[0] in x.slab ==> QuietPoll(env, x, 0, rid)
    ensures Dead(Polled(env, x).timers, rid)
  {
    hide Inv, Dead, QuietPoll, AllAffected;
    if x.queue[0] in x.slab {
      MidwayStart(env, x);
      PollKeepsDead(env, x, 0, rid);
    }
  }

  lemma MidwayStart(env: Env, x: Exec)
    requires x.queue != []
    ensures Midway(env, x, 0).timers == x.timers
  {
    assert env(|x.log|).effects[..0] == [];
  }

  // ---- poll loops ----

  ghost predicate QuietLoop(env: Env, budget: nat, s: Exec, count: nat, from: nat, rid: nat)
  {
    forall i :: from <= i && RealPoll(PollLoop(env, budget, s, count).s.log, i) ==>
      QuietPoll(env, BeforePoll(env, budget, s, count, i), 0, rid)
  }

  /** The loop after its first poll. */
  lemma LoopUnfolds(env: Env, budget: nat, s: Exec, count: nat)
    requires Inv(s) && count < budget && Refilled(env, s).queue != []
    ensures
      var r := Refilled(env, s);
      var p := Polled(env, r);
      && Inv(r) && Inv(p) && s.log <= r.log && r.log <= p.log && |p.log| == |r.log| + 1
      && PollLoop(env, budget, s, count) == PollLoop(env, budget, p, count + 1)
      && p.log <= PollLoop(env, budget, s, count).s.log
      && (RealPoll(PollLoop(env, budget, s, count).s.log, |r.log|) <==> r.queue[0] in r.slab)
      && BeforePoll(env, budget, s, count, |r.log|) == r
      && (forall i :: |r.log| < i ==> BeforePoll(env, budget, s, count, i) == BeforePoll(env, budget, p, count + 1, i))
      && r.timers == s.timers && p.timers.now == s.timers.now
  {
    hide Inv, Refilled, Polled;
    RefilledKeeps(env, s);
    var r := Refilled(env, s);
    PolledKeeps(env, r);
    PolledOutcome(env, r);
    PollLoopKeeps(env, budget, Polled(env, r), count + 1);
  }

  lemma RefilledTimers(env: Env, s: Exec)
    requires Inv(s)
    ensures Refilled(env, s).timers == s.timers
  {
    hide Inv, Refilled;
    RefilledKeeps(env, s);
  }

  lemma QuietRest(env: Env, budget: nat, s: Exec, count: nat, from: nat, rid: nat)
    requires Inv(s) && count < budget && Refilled(env, s).queue != [] && QuietLoop(env, budget, s, count, from, rid)
    ensures QuietLoop(env, budget, Polled(env, Refilled(env, s)), count + 1, |Refilled(env, s).log| + 1 + from, rid)
    ensures from <= |Refilled(env, s).log| + 1 ==>
      QuietLoop(env, budget, Polled(env, Refilled(env, s)), count + 1, |Refilled(env, s).log| + 1, rid)
    ensures from <= |Refilled(env, s).log| && Refilled(env, s).queue[0] in Refilled(env, s).slab ==>
      QuietPoll(env, Refilled(env, s), 0, rid)
  {
    hide Inv, Refilled, Polled, QuietPoll, PollLoop, RealPoll, BeforePoll;
    LoopUnfolds(env, budget, s, count);
  }

  lemma {:induction false} LoopKeepsDead(env: Env, budget: nat, s: Exec, count: nat, rid: nat)
    requires Inv(s) && Dead(s.timers, rid) && QuietLoop(env, budget, s, count, |s.log|, rid)
    ensures Dead(PollLoop(env, budget, s, count).s.timers, rid)
    decreases budget - count
  {
    hide Inv, Refilled, Polled, Dead, QuietPoll, QuietLoop, RealPoll, BeforePoll;
    RefilledTimers(env, s);
    if count < budget && Refilled(env, s).queue != [] {
      LoopUnfolds(env, budget, s, count);
      QuietRest(env, budget, s, count, |s.log|, rid);
      WholePollKeepsDead(env, Refilled(env, s), rid);
      LoopKeepsDead(env, budget, Polled(env, Refilled(env, s)), count + 1, rid);
    }
  }

  /** Effect `j` of the poll at position `i` cancels `rid`, an id given out to a timer. */
  ghost predicate Cancels(env: Env, x: Exec, j: nat, rid: nat)
  {
    && x.queue != [] && j < |env(|x.log|).effects| && env(|x.log|).effects[j] == DeregisterTimer(rid)
    && rid < Midway(env, x, j).timers.next
    && (rid in Midway(env, x, j).timers.slots ==> Midway(env, x, j).timers.slots[rid].TimerSlot?)
  }

  lemma PollCancels(env: Env, x: Exec, j: nat, rid: nat)
    requires Inv(x) && Cancels(env, x, j, rid) && x.queue[0] in x.slab && QuietPoll(env, x, j + 1, rid)
    ensures Dead(Polled(env, x).timers, rid)
  {
    hide Recorded, Consistent, NoneLost, AllAffected, Hands, QuietPoll, Live, Deregistered;
    var t, effects := x.queue[0], env(|x.log|).effects;
    assert x.queue == [t] + x.queue[1..];
    HeadTaken(x.wakes, t, x.queue[1..], x.ledger);
    var c := x.(queue := x.queue[1..], wakes := Cleared(x.wakes, t), slab := x.slab - {t});
    AllAffectedKeeps(c, effects[..j]);
    CancelRemoves(Midway(env, x, j), rid);
    NextGrows(Midway(env, x, j).timers, 0, Waker(0, ByTask, false), rid);
    OneMore(c, effects, j);
    PollKeepsDead(env, x, j + 1, rid);
  }

  lemma {:induction false} LoopCancels(env: Env, budget: nat, s: Exec, count: nat, i: nat, j: nat, rid: nat)
    requires Inv(s) && |s.log| <= i && RealPoll(PollLoop(env, budget, s, count).s.log, i)
    requires
      var x := BeforePoll(env, budget, s, count, i);
      Cancels(env, x, j, rid) && QuietPoll(env, x, j + 1, rid)
    requires QuietLoop(env, budget, s, count, i + 1, rid)
    ensures Dead(PollLoop(env, budget, s, count).s.timers, rid)
    decreases budget - count
  {
    hide Inv, Refilled, Polled, Dead, QuietPoll, Cancels;
    RefilledLog(env, s);
    RefilledKeeps(env, s);
    var r := Refilled(env, s);
    if count < budget && r.queue != [] {
      LoopUnfolds(env, budget, s, count);
      var p := Polled(env, r);
      if |r.log| < i {
        LoopCancels(env, budget, p, count + 1, i, j, rid);
      } else {
        assert RealPoll(PollLoop(env, budget, s, count).s.log, |r.log|);
        PollCancels(env, r, j, rid);
        QuietRest(env, budget, s, count, i + 1, rid);
        LoopKeepsDead(env, budget, p, count + 1, rid);
      }
    }
  }

  // ---- parks and ticks ----

  /** A park fires no dead id, and leaves it dead. */
  lemma ParkSkipsDead(env: Env, s: Exec, woken: seq<Wake>, rid: nat)
    requires Inv(s) && Dead(s.timers, rid)
    requires Enumerates(woken, AboutToFire(env, s).timers, FireClock(env, s))
    ensures Dead(ParkedOnce(env, s, woken).timers, rid)
    ensures forall i :: 0 <= i < |woken| ==> woken[i].rid != rid
  {
    hide Recorded, NoneLost, AboutToFire, ParkedOnce, FireClock, Flushed, Live;
    CalmOf(s);
    AboutToFireKeeps(env, s);
    ParkedKeeps(env, s, woken);
    FlushedKeeps(s.timers);
    ParkFiresLiveDue(s.timers, env(|s.log|).reading);
  }

  /** From position `from` on, no registration of the tick, by a poll or as it begins, is handed `rid`. */
  ghost predicate QuietTick(env: Env, budget: nat, s: Exec, woken: seq<Wake>, from: nat, rid: nat)
  {
    && (from <= |s.log| ==> QuietEffects(s, env(|s.log|).effects, 0, rid))
    && (forall i :: from <= i && RealPoll(Tick(env, budget, s, woken).log, i) ==>
         QuietPoll(env, PollIn(env, budget, s, woken, i), 0, rid))
  }

  lemma QuietTickLoops(env: Env, budget: nat, s: Exec, woken: seq<Wake>, from: nat, rid: nat)
    requires Inv(s) && QuietTick(env, budget, s, woken, from, rid)
    ensures
      var o, r, p := Opened(env, s), FirstLoop(env, budget, s), ThroughPark(env, budget, s, woken);
      && QuietLoop(env, budget, o, 0, from, rid)
      && (from <= |p.log| ==> QuietLoop(env, budget, p, r.count, |p.log|, rid))
      && (|r.s.log| <= from ==> QuietLoop(env, budget, p, r.count, from, rid))
  {
    hide Inv, Opened, PollLoop, ParkedOnce, Parked, FireClock, BeforePoll, QuietPoll, QuietEffects;
    var o, r, p := Opened(env, s), FirstLoop(env, budget, s), ThroughPark(env, budget, s, woken);
    var s' := Tick(env, budget, s, woken);
    OpenedKeeps(env, s);
    PollLoopKeeps(env, budget, o, 0);
    ParkedKeeps(env, r.s, woken);
    PollLoopKeeps(env, budget, p, r.count);
    TickKeeps(env, budget, s, woken);
    var last := PollLoop(env, budget, p, r.count).s;
    assert s'.log == last.log + [TickEnd];
    assert r.s.log <= p.log <= last.log <= s'.log;
    forall i | from <= i && RealPoll(r.s.log, i)
      ensures QuietPoll(env, BeforePoll(env, budget, o, 0, i), 0, rid)
    {
      assert s'.log[i] == r.s.log[i];
      assert RealPoll(s'.log, i);
    }
    forall i | from <= i && |r.s.log| <= i && RealPoll(last.log, i)
      ensures QuietPoll(env, BeforePoll(env, budget, p, r.count, i), 0, rid)
    {
      assert s'.log[i] == last.log[i];
      assert RealPoll(s'.log, i);
    }
  }

  lemma OpenedKeepsDead(env: Env, s: Exec, rid: nat)
    requires Inv(s) && Dead(s.timers, rid) && QuietEffects(s, env(|s.log|).effects, 0, rid)
    ensures Dead(Opened(env, s).timers, rid)
  {
    hide Inv, Opened, Dead, QuietEffects, Calm;
    OpenedKeeps(env, s);
    CalmOf(s);
    assert env(|s.log|).effects[..0] == [];
    EffectsKeepDead(s, env(|s.log|).effects, 0, rid);
  }

  /** A tick with a dead id fires it not, and leaves it dead. */
  lemma TickSkipsDead(env: Env, budget: nat, s: Exec, woken: seq<Wake>, rid: nat)
    requires Inv(s) && Dead(s.timers, rid) && FiresWhatIsDue(env, budget, s, woken)
    requires QuietTick(env, budget, s, woken, |s.log|, rid)
    ensures Dead(Tick(env, budget, s, woken).timers, rid)
    ensures forall i :: 0 <= i < |woken| ==> woken[i].rid != rid
  {
    hide Inv, Opened, PollLoop, ParkedOnce, Parked, FireClock, QuietPoll, QuietLoop, QuietEffects, Dead, AboutToFire;
    hide Enumerates;
    QuietTickLoops(env, budget, s, woken, |s.log|, rid);
    ThroughParkKeeps(env, budget, s, woken);
    OpenedKeeps(env, s);
    OpenedKeepsDead(env, s, rid);
    var r := FirstLoop(env, budget, s);
    PollLoopKeeps(env, budget, Opened(env, s), 0);
    QuietLater(env, budget, Opened(env, s), 0, |s.log|, |Opened(env, s).log|, rid);
    LoopKeepsDead(env, budget, Opened(env, s), 0, rid);
    AfterFirstLoop(env, budget, s, woken, rid);
  }

  lemma QuietLater(env: Env, budget: nat, s: Exec, count: nat, from: nat, from': nat, rid: nat)
    requires QuietLoop(env, budget, s, count, from, rid) && from <= from'
    ensures QuietLoop(env, budget, s, count, from', rid)
  {
    hide QuietPoll, PollLoop, BeforePoll;
  }

  /** From the end of the first poll loop, through the park, to the end of the tick. */
  lemma AfterFirstLoop(env: Env, budget: nat, s: Exec, woken: seq<Wake>, rid: nat)
    requires Inv(s) && Dead(FirstLoop(env, budget, s).s.timers, rid) && FiresWhatIsDue(env, budget, s, woken)
    requires
      var p := ThroughPark(env, budget, s, woken);
      QuietLoop(env, budget, p, FirstLoop(env, budget, s).count, |p.log|, rid)
    ensures Dead(Tick(env, budget, s, woken).timers, rid)
    ensures forall i :: 0 <= i < |woken| ==> woken[i].rid != rid
  {
    hide Inv, FirstLoop, PollLoop, ParkedOnce, Parked, FireClock, QuietLoop, Dead, AboutToFire, Enumerates;
    FirstLoopKeeps(env, budget, s);
    var r := FirstLoop(env, budget, s);
    ParkSkipsDead(env, r.s, woken, rid);
    ParkedKeeps(env, r.s, woken);
    LoopKeepsDead(env, budget, ThroughPark(env, budget, s, woken), r.count, rid);
  }

  /** The tick of the cancelling poll: dead at its end, and not fired if its park was still to come. */
  lemma TickCancels(env: Env, budget: nat, s: Exec, woken: seq<Wake>, i: nat, j: nat, rid: nat)
    requires Inv(s) && |s.log| <= i && RealPoll(Tick(env, budget, s, woken).log, i)
    requires FiresWhatIsDue(env, budget, s, woken)
    requires
      var x := PollIn(env, budget, s, woken, i);
      Cancels(env, x, j, rid) && QuietPoll(env, x, j + 1, rid)
    requires QuietTick(env, budget, s, woken, i + 1, rid)
    ensures Dead(Tick(env, budget, s, woken).timers, rid)
    ensures i < |FirstLoop(env, budget, s).s.log| ==> forall m :: 0 <= m < |woken| ==> woken[m].rid != rid
  {
    hide Inv, Opened, PollLoop, ParkedOnce, Parked, FireClock, BeforePoll, QuietPoll, QuietTick, QuietLoop, Dead;
    hide Cancels, AboutToFire, Enumerates;
    var o, r, p := Opened(env, s), FirstLoop(env, budget, s), ThroughPark(env, budget, s, woken);
    OpenedKeeps(env, s);
    OpenedShapeOnly(env, s);
    PollLoopKeeps(env, budget, o, 0);
    ParkedKeeps(env, r.s, woken);
    ParkShape(env, r.s, woken);
    PollLoopKeeps(env, budget, p, r.count);
    QuietTickLoops(env, budget, s, woken, i + 1, rid);
    var s', last := Tick(env, budget, s, woken), PollLoop(env, budget, p, r.count).s;
    assert s'.log == last.log + [TickEnd];
    if i < |r.s.log| {
      assert s'.log[i] == r.s.log[i];
      LoopCancels(env, budget, o, 0, i, j, rid);
      AfterFirstLoop(env, budget, s, woken, rid);
    } else {
      assert s'.log[i] == last.log[i];
      LoopCancels(env, budget, p, r.count, i, j, rid);
    }
  }

  // ---- runs ----

  /** From tick `n` and log position `from` on, no registration of the run is handed `rid`. */
  ghost predicate QuietRun(
      env: Env, budget: nat, s: Exec, fires: seq<seq<Wake>>, n: nat, from: nat, rid: nat)
  {
    forall q :: n <= q < |fires| ==> QuietTick(env, budget, Run(env, budget, s, fires[..q]), fires[q], from, rid)
  }

  /** From tick `n` on the timers fired are those due. */
  ghost predicate FiresDue(env: Env, budget: nat, s: Exec, fires: seq<seq<Wake>>, n: nat)
  {
    forall q :: n <= q < |fires| ==> FiresWhatIsDue(env, budget, Run(env, budget, s, fires[..q]), fires[q])
  }

  predicate NotFired(woken: seq<Wake>, rid: nat)
  {
    forall m :: 0 <= m < |woken| ==> woken[m].rid != rid
  }

  /**
   A cancelled timer never fires. Let effect `j` of the poll at log position `i`, in tick
   `n`, cancel `rid`, and let no registration after that effect be handed `rid`. Then no
   later park of the run fires `rid`: not that of tick `n`, if the poll came before it,
   and not that of any later tick.
   */
  lemma CancelledNeverFires(
      env: Env, budget: nat, s: Exec, fires: seq<seq<Wake>>, n: nat, i: nat, j: nat, rid: nat)
    requires Inv(s) && n < |fires| && FiresDue(env, budget, s, fires, n)
    requires
      var r := Run(env, budget, s, fires[..n]);
      var x := PollIn(env, budget, r, fires[n], i);
      && |r.log| <= i && RealPoll(Run(env, budget, s, fires[..n + 1]).log, i)
      && Cancels(env, x, j, rid) && QuietPoll(env, x, j + 1, rid)
    requires QuietRun(env, budget, s, fires, n, i + 1, rid)
    ensures
      var first := if i < |FirstLoop(env, budget, Run(env, budget, s, fires[..n])).s.log| then n else n + 1;
      forall q :: first <= q < |fires| ==> NotFired(fires[q], rid)
  {
    hide Inv, Tick, Run, PollIn, Cancels, QuietPoll, QuietTick, Dead, FirstLoop, FiresWhatIsDue, RealPoll;
    RunIsTick(env, budget, s, fires, n);
    var r, r' := Run(env, budget, s, fires[..n]), Run(env, budget, s, fires[..n + 1]);
    TickCancels(env, budget, r, fires[n], i, j, rid);
    assert i + 1 <= |r'.log| by { PollLogged(r'.log, i); }
    DeadStaysDead(env, budget, s, fires, n + 1, i + 1, rid);
  }

  lemma PollLogged(l: Log, i: nat)
    requires RealPoll(l, i)
    ensures i < |l|
  {
  }

  lemma QuietTickLater(env: Env, budget: nat, s: Exec, woken: seq<Wake>, from: nat, from': nat, rid: nat)
    requires QuietTick(env, budget, s, woken, from, rid) && from <= from'
    ensures QuietTick(env, budget, s, woken, from', rid)
  {
    hide QuietPoll, Tick, PollIn, QuietEffects;
  }

  /** One tick of the run. */
  lemma TickOfRunSkipsDead(env: Env, budget: nat, s: Exec, fires: seq<seq<Wake>>, n: nat, from: nat, rid: nat)
    requires Inv(s) && n < |fires| && Dead(Run(env, budget, s, fires[..n]).timers, rid)
    requires from <= |Run(env, budget, s, fires[..n]).log|
    requires FiresDue(env, budget, s, fires, n) && QuietRun(env, budget, s, fires, n, from, rid)
    ensures Dead(Run(env, budget, s, fires[..n + 1]).timers, rid) && NotFired(fires[n], rid)
    ensures from <= |Run(env, budget, s, fires[..n + 1]).log|
    ensures FiresDue(env, budget, s, fires, n + 1) && QuietRun(env, budget, s, fires, n + 1, from, rid)
  {
    hide Inv, Tick, Run, QuietTick, Dead, FiresWhatIsDue;
    RunIsTick(env, budget, s, fires, n);
    var r := Run(env, budget, s, fires[..n]);
    QuietTickLater(env, budget, r, fires[n], from, |r.log|, rid);
    TickSkipsDead(env, budget, r, fires[n], rid);
    TickKeeps(env, budget, r, fires[n]);
  }

  lemma {:induction false} DeadStaysDead(
      env: Env, budget: nat, s: Exec, fires: seq<seq<Wake>>, n: nat, from: nat, rid: nat)
    requires Inv(s) && n <= |fires| && Dead(Run(env, budget, s, fires[..n]).timers, rid)
    requires from <= |Run(env, budget, s, fires[..n]).log|
    requires FiresDue(env, budget, s, fires, n) && QuietRun(env, budget, s, fires, n, from, rid)
    ensures forall q :: n <= q < |fires| ==> NotFired(fires[q], rid)
    decreases |fires| - n
  {
    hide Inv, Run, Dead, FiresDue, QuietRun, NotFired;
    if n < |fires| {
      TickOfRunSkipsDead(env, budget, s, fires, n, from, rid);
      DeadStaysDead(env, budget, s, fires, n + 1, from, rid);
    }
  }
}
