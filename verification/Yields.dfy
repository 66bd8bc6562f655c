/** When the main future yields, the next park does not sleep, and only that one. */
module Yields {
  import opened WakeModel
  import opened ReactorModel
  import opened ExecLog
  import opened ExecModel
  import opened ExecInvariant
  import opened TickGrammar
  import opened WakeDelivery

  /** The event at `i`, a tick's begin or the poll of a future, defers the main future. */
  predicate YieldsAt(env: Env, l: Log, i: nat)
    requires i < |l|
  {
    && (l[i] == TickBegin || (l[i].PollTask? && l[i].outcome != Invalid))
    && Defer(BLOCK_ON) in env(i).effects
  }

  ghost predicate YieldedSince(env: Env, l: Log, from: nat)
  {
    exists i :: from <= i < |l| && YieldsAt(env, l, i)
  }

  /** From `s` to `s'` the flag was set exactly if an event in between yielded. */
  ghost predicate FlagFollows(env: Env, s: Exec, s': Exec)
  {
    s.log <= s'.log && (s'.wakes.yielded <==> s.wakes.yielded || YieldedSince(env, s'.log, |s.log|))
  }

  lemma FlagThrough(env: Env, a: Exec, b: Exec, c: Exec)
    requires FlagFollows(env, a, b) && FlagFollows(env, b, c)
    ensures FlagFollows(env, a, c)
  {
    if YieldedSince(env, b.log, |a.log|) {
      var i :| |a.log| <= i < |b.log| && YieldsAt(env, b.log, i);
      assert YieldsAt(env, c.log, i);
    }
    if i: nat :| |a.log| <= i < |c.log| && YieldsAt(env, c.log, i) {
      if i < |b.log| { assert YieldsAt(env, b.log, i); }
    }
  }

  /** A step whose events cannot yield. */
  lemma FlagStays(env: Env, s: Exec, s': Exec)
    requires s.log <= s'.log && s'.wakes.yielded == s.wakes.yielded
    requires forall i :: |s.log| <= i < |s'.log| ==> s'.log[i] != TickBegin && !s'.log[i].PollTask?
    ensures FlagFollows(env, s, s')
  {
  }

  // ---- what sets the flag ----

  lemma {:induction false} ArrivalsKeepFlag(s: Exec, arrivals: seq<Arrival>)
    ensures AllArrived(s, arrivals).wakes.yielded == s.wakes.yielded && AllArrived(s, arrivals).log == s.log
  {
    if arrivals != [] {
      ArrivalsKeepFlag(s, arrivals[..|arrivals| - 1]);
    }
  }

  lemma OneEffectYields(s: Exec, e: Effect)
    ensures Affected(s, e).wakes.yielded <==> s.wakes.yielded || e == Defer(BLOCK_ON)
    ensures Affected(s, e).log == s.log
  {
    hide Registered, Deregistered;
  }

  lemma {:induction false} EffectsYield(s: Exec, effects: seq<Effect>)
    ensures AllAffected(s, effects).wakes.yielded <==> s.wakes.yielded || Defer(BLOCK_ON) in effects
    ensures AllAffected(s, effects).log == s.log
  {
    hide Affected;
    if effects != [] {
      var m := |effects| - 1;
      EffectsYield(s, effects[..m]);
      OneEffectYields(AllAffected(s, effects[..m]), effects[m]);
      assert effects == effects[..m] + [effects[m]];
    }
  }

  lemma {:induction false} WokenKeepFlag(w: Wakes, woken: seq<Wake>)
    ensures AllWoken(w, woken).yielded == w.yielded
  {
    if woken != [] {
      WokenKeepFlag(w, woken[..|woken| - 1]);
    }
  }

  lemma CrossKeepsFlag(s: Exec)
    requires Inv(s)
    ensures CrossDrained(s.wakes).yielded == s.wakes.yielded
  {
    hide CrossDrained, Recorded, Consistent;
    CrossDrainedKeeps(s.wakes, s.queue, s.ledger);
  }

  // ---- phases ----

  lemma ReactorDrainedFlag(env: Env, s: Exec)
    requires Inv(s)
    ensures FlagFollows(env, s, ReactorDrained(env, s))
  {
    hide Inv, AllArrived, Kept;
    ReactorDrainedLogOf(env, s);
    ArrivalsKeepFlag(s, env(|s.log|).before);
    FlagStays(env, s, ReactorDrained(env, s));
  }

  lemma TaskDrainedFlag(env: Env, s: Exec)
    requires Inv(s)
    ensures FlagFollows(env, s, TaskDrained(s))
  {
    hide Inv, CrossDrained, Kept;
    CrossKeepsFlag(s);
    TaskDrainedLog(s);
    FlagStays(env, s, TaskDrained(s));
  }

  lemma RefilledFlag(env: Env, s: Exec)
    requires Inv(s)
    ensures FlagFollows(env, s, Refilled(env, s))
  {
    hide Inv, FlagFollows, ReactorDrained, TaskDrained, Admitted;
    if s.queue == [] {
      var r := ReactorDrained(env, s);
      var d := TaskDrained(r);
      ReactorDrainedKeeps(env, s);
      ReactorDrainedFlag(env, s);
      TaskDrainedFlag(env, r);
      FlagThrough(env, s, r, d);
      TaskDrainedKeeps(r);
      AdmittedKeeps(d);
      AdmittedPlain(d);
      FlagStays(env, d, Admitted(d));
      FlagThrough(env, s, d, Admitted(d));
    } else {
      FlagStays(env, s, s);
    }
  }

  lemma PolledFlag(env: Env, s: Exec)
    requires Inv(s) && s.queue != []
    ensures FlagFollows(env, s, Polled(env, s))
  {
    hide Inv, AllAffected;
    var t := s.queue[0];
    var c := s.(queue := s.queue[1..], wakes := Cleared(s.wakes, t), slab := s.slab - {t});
    EffectsYield(c, env(|s.log|).effects);
    var p := Polled(env, s);
    assert YieldedSince(env, p.log, |s.log|) <==> YieldsAt(env, p.log, |s.log|);
  }

  lemma {:induction false} LoopFlag(env: Env, budget: nat, s: Exec, count: nat)
    requires Inv(s)
    ensures FlagFollows(env, s, PollLoop(env, budget, s, count).s)
    decreases budget - count
  {
    hide Inv, FlagFollows, Refilled, Polled;
    if count < budget {
      RefilledKeeps(env, s);
      RefilledFlag(env, s);
      var r := Refilled(env, s);
      if r.queue != [] {
        PolledKeeps(env, r);
        PolledFlag(env, r);
        FlagThrough(env, s, r, Polled(env, r));
        LoopFlag(env, budget, Polled(env, r), count + 1);
        FlagThrough(env, s, Polled(env, r), PollLoop(env, budget, s, count).s);
      }
    } else {
      FlagStays(env, s, s);
    }
  }

  lemma OpenedFlag(env: Env, s: Exec)
    requires Inv(s)
    ensures FlagFollows(env, s, Opened(env, s))
  {
    hide Calm, AllAffected, Kept, AllPopped, Recorded;
    AllAffectedKeeps(s, env(|s.log|).effects);
    EffectsYield(s, env(|s.log|).effects);
    OpenedShape(env, s);
    OpenedKeeps(env, s);
    var d := DeferredDrained(Logged(AllAffected(s, env(|s.log|).effects), TickBegin));
    RecordMark(s.queue, s.slab, s.ledger, s.log, TickBegin);
    LoggedCalm(AllAffected(s, env(|s.log|).effects), TickBegin);
    DeferredDrainedKeeps(Logged(AllAffected(s, env(|s.log|).effects), TickBegin));
    AllPoppedKeeps(d);
    var o := Opened(env, s);
    assert YieldedSince(env, o.log, |s.log|) <==> YieldsAt(env, o.log, |s.log|);
  }

  /** The park looks at the flag as it stands before it, and leaves it clear. */
  lemma ParkTakesFlag(env: Env, s: Exec, woken: seq<Wake>)
    requires Inv(s)
    ensures Listening(env, s).wakes.yielded == s.wakes.yielded
    ensures !ParkedOnce(env, s, woken).wakes.yielded
  {
    hide AllArrived, AllWoken, CrossDrained, Flushed, Expired, FireClock, Parked, Recorded, Calm, Kept;
    var m := env(|s.log|);
    ArrivalsKeepFlag(s, m.before);
    var b := AtReset(env, s);
    ArrivalsKeepFlag(b.(wakes := b.wakes.(interrupted := false)), m.early);
    var p := Prepared(env, s);
    ArrivalsKeepFlag(p.(timers := Flushed(p.timers)), m.during);
    var f := AboutToFire(env, s);
    WokenKeepFlag(f.wakes, woken);
    var x := f.(timers := Expired(f.timers, FireClock(env, s)), wakes := AllWoken(f.wakes, woken));
    ArrivalsKeepFlag(x, m.late);
    FiredKeeps(env, s, woken);
    var y := Fired(env, s, woken);
    assert !y.wakes.yielded;
    ReactorDrainedKeeps(env, y);
    ArrivalsKeepFlag(y, env(|y.log|).before);
    CrossKeepsFlag(ReactorDrained(env, y));
  }

  // ---- ticks and runs ----

  /**
   The park of a tick finds the flag set exactly if it was set when the tick began or the
   main future yielded since; after the tick it is set exactly if that happened after the park.
   */
  lemma TickFlag(env: Env, budget: nat, s: Exec, woken: seq<Wake>)
    requires Inv(s)
    ensures
      var first, p, s' := FirstLoop(env, budget, s).s, ThroughPark(env, budget, s, woken), Tick(env, budget, s, woken);
      && (Listening(env, first).wakes.yielded <==> s.wakes.yielded || YieldedSince(env, first.log, |s.log|))
      && (s'.wakes.yielded <==> YieldedSince(env, s'.log, |p.log|))
  {
    hide Inv, FlagFollows, Opened, PollLoop, ParkedOnce, Parked, FireClock, Listening;
    var o, r, p := Opened(env, s), FirstLoop(env, budget, s), ThroughPark(env, budget, s, woken);
    OpenedKeeps(env, s);
    OpenedFlag(env, s);
    PollLoopKeeps(env, budget, o, 0);
    LoopFlag(env, budget, o, 0);
    FlagThrough(env, s, o, r.s);
    ParkTakesFlag(env, r.s, woken);
    ParkedKeeps(env, r.s, woken);
    LoopFlag(env, budget, p, r.count);
    var f := PollLoop(env, budget, p, r.count).s;
    FlagStays(env, f, Logged(f, TickEnd));
    FlagThrough(env, p, f, Logged(f, TickEnd));
    FlagMeans(env, s, r.s);
    FlagMeans(env, p, Logged(f, TickEnd));
  }

  lemma FlagMeans(env: Env, s: Exec, s': Exec)
    requires FlagFollows(env, s, s')
    ensures s'.wakes.yielded <==> s.wakes.yielded || YieldedSince(env, s'.log, |s.log|)
  {
  }

  /**
   Over every run: the park of a tick that follows another stays awake on account of the
   main future exactly if that yielded since the park before.
   */
  lemma YieldKeepsNextParkAwake(env: Env, budget: nat, s: Exec, fires: seq<seq<Wake>>)
    requires Inv(s) && fires != []
    ensures
      var m := |fires| - 1;
      var before := ThroughPark(env, budget, Run(env, budget, s, fires[..m]), fires[m]);
      var first := FirstLoop(env, budget, Run(env, budget, s, fires)).s;
      Listening(env, first).wakes.yielded <==> YieldedSince(env, first.log, |before.log|)
  {
    hide Inv, Tick, ThroughPark, FirstLoop, Listening, FireClock;
    var m := |fires| - 1;
    RunKeeps(env, budget, s, fires[..m]);
    var r := Run(env, budget, s, fires[..m]);
    TickKeeps(env, budget, r, fires[m]);
    TickFlag(env, budget, r, fires[m]);
    var s' := Tick(env, budget, r, fires[m]);
    TickFlag(env, budget, s', []);
    FirstLoopKeeps(env, budget, s');
    YieldedJoined(env, s'.log, FirstLoop(env, budget, s').s.log, |ThroughPark(env, budget, r, fires[m]).log|);
  }

  lemma YieldedJoined(env: Env, l: Log, l': Log, from: nat)
    requires l <= l' && from <= |l|
    ensures YieldedSince(env, l', from) <==> YieldedSince(env, l, from) || YieldedSince(env, l', |l|)
  {
    if i: nat :| from <= i < |l| && YieldsAt(env, l, i) {
      assert YieldsAt(env, l', i);
    }
    if i: nat :| from <= i < |l'| && YieldsAt(env, l', i) {
      if i < |l| { assert YieldsAt(env, l, i); }
    }
  }
}
