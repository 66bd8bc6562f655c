/**
 Parks that sleep although a spawned task waits in the injection channel: exactly when
 they do, and runs that reach such a park for every budget.
 */
module Oversleep {
  import opened Options
  import opened Seqs
  import TimerRuns
  import opened WakeModel
  import opened ReactorModel
  import opened ExecLog
  import opened ExecModel
  import opened ExecInvariant
  import opened TickGrammar
  import opened Injection
  import opened ParkSleep

  /** The park that follows state `s` gets time to sleep, no signal, and a task in the channel. */
  predicate Oversleeps(env: Env, s: Exec)
  {
    RequiresTimeout(env, s) && !Prepared(env, s).wakes.signalled && Prepared(env, s).channel != []
  }

  // ---- the interrupt flag between two parks ----

  /**
   Between resets a stale flag stays stale and a heard one heard; every send sets the flag;
   and the channel grows by sends only.
   */
  ghost predicate Tracks(s: Exec, s': Exec)
  {
    && (Heard(s.wakes) <==> Heard(s'.wakes))
    && (s.wakes.interrupted ==> s'.wakes.interrupted)
    && s.sent <= s'.sent
    && (|s.sent| < |s'.sent| ==> s'.wakes.interrupted)
    && |s'.channel| + |s.sent| <= |s.channel| + |s'.sent|
  }

  lemma TracksThrough(a: Exec, b: Exec, c: Exec)
    requires Tracks(a, b) && Tracks(b, c)
    ensures Tracks(a, c)
  {
  }

  lemma TracksSame(s: Exec, s': Exec)
    requires s'.wakes.interrupted == s.wakes.interrupted && s'.wakes.signalled == s.wakes.signalled
    requires s'.sent == s.sent && |s'.channel| <= |s.channel|
    ensures Tracks(s, s')
  {
  }

  lemma OneArrivalTracks(s: Exec, a: Arrival)
    ensures Tracks(s, Arrived(s, a))
  {
  }

  lemma OneEffectTracks(s: Exec, e: Effect)
    ensures Tracks(s, Affected(s, e))
  {
    hide Registered, Deregistered;
  }

  lemma {:induction false} ArrivalsTrack(s: Exec, arrivals: seq<Arrival>)
    ensures Tracks(s, AllArrived(s, arrivals))
  {
    hide Arrived;
    if arrivals != [] {
      var m := |arrivals| - 1;
      ArrivalsTrack(s, arrivals[..m]);
      OneArrivalTracks(AllArrived(s, arrivals[..m]), arrivals[m]);
    }
  }

  lemma {:induction false} EffectsTrack(s: Exec, effects: seq<Effect>)
    ensures Tracks(s, AllAffected(s, effects))
  {
    hide Affected;
    if effects != [] {
      var m := |effects| - 1;
      EffectsTrack(s, effects[..m]);
      OneEffectTracks(AllAffected(s, effects[..m]), effects[m]);
    }
  }

  lemma ReactorDrainedTracks(env: Env, s: Exec)
    ensures Tracks(s, ReactorDrained(env, s))
  {
    hide AllArrived, Kept, Tracks;
    var a := AllArrived(s, env(|s.log|).before);
    ArrivalsTrack(s, env(|s.log|).before);
    TracksSame(a, ReactorTaken(a));
    TracksThrough(s, a, ReactorTaken(a));
  }

  lemma TaskDrainedTracks(s: Exec)
    ensures Tracks(s, TaskDrained(s))
  {
    hide CrossDrained, Kept, Tracks;
    CrossDrainedKeeps(s.wakes, [], {});
    TracksSame(s, TaskDrained(s));
  }

  lemma RefilledTracks(env: Env, s: Exec)
    ensures Tracks(s, Refilled(env, s))
  {
    hide ReactorDrained, TaskDrained, Tracks;
    TracksSame(s, s);
    if s.queue == [] {
      var r := ReactorDrained(env, s);
      var d := TaskDrained(r);
      ReactorDrainedTracks(env, s);
      TaskDrainedTracks(r);
      TracksThrough(s, r, d);
      TracksSame(d, Admitted(d));
      TracksThrough(s, d, Admitted(d));
    }
  }

  lemma PolledTracks(env: Env, s: Exec)
    requires s.queue != []
    ensures Tracks(s, Polled(env, s))
  {
    hide AllAffected;
    var t := s.queue[0];
    var c := s.(queue := s.queue[1..], wakes := Cleared(s.wakes, t), slab := s.slab - {t});
    EffectsTrack(c, env(|s.log|).effects);
  }

  lemma {:induction false} PollLoopTracks(env: Env, budget: nat, s: Exec, count: nat)
    ensures Tracks(s, PollLoop(env, budget, s, count).s)
    decreases budget - count
  {
    hide Refilled, Polled, Tracks;
    TracksSame(s, s);
    if count < budget {
      var r := Refilled(env, s);
      RefilledTracks(env, s);
      if r.queue != [] {
        PolledTracks(env, r);
        TracksThrough(s, r, Polled(env, r));
        PollLoopTracks(env, budget, Polled(env, r), count + 1);
        TracksThrough(s, Polled(env, r), PollLoop(env, budget, s, count).s);
      }
    }
  }

  lemma {:induction false} AllPoppedTracks(s: Exec)
    ensures AllPopped(s).wakes == s.wakes && AllPopped(s).sent == s.sent && |AllPopped(s).channel| <= |s.channel|
    decreases |s.channel|
  {
    if Accepts(s).Some? {
      AllPoppedTracks(Admitted(s));
    }
  }

  lemma OpenedTracks(env: Env, s: Exec)
    ensures Tracks(s, Opened(env, s))
  {
    hide AllAffected, AllPopped, Kept, Tracks;
    var a := AllAffected(s, env(|s.log|).effects);
    EffectsTrack(s, env(|s.log|).effects);
    var d := DeferredDrained(Logged(a, TickBegin));
    AllPoppedTracks(d);
    TracksSame(a, Opened(env, s));
    TracksThrough(s, a, Opened(env, s));
  }

  lemma FirstLoopTracks(env: Env, budget: nat, s: Exec)
    ensures Tracks(s, FirstLoop(env, budget, s).s) && Tracks(Opened(env, s), FirstLoop(env, budget, s).s)
  {
    hide Opened, PollLoop, Tracks;
    OpenedTracks(env, s);
    PollLoopTracks(env, budget, Opened(env, s), 0);
    TracksThrough(s, Opened(env, s), FirstLoop(env, budget, s).s);
  }

  // ---- when a park oversleeps ----

  /** Opening a tick empties the channel, when no id was sent twice. */
  lemma OpenedEmptiesChannel(env: Env, s: Exec)
    requires Inv(s) && InOrder(s) && Distinct(Opened(env, s).sent)
    ensures Opened(env, s).channel == []
  {
    hide Calm, InOrder, AllAffected, Kept, AllPopped, Recorded, Distinct, AllNew;
    var a := AllAffected(s, env(|s.log|).effects);
    AffectedInOrder(s, env(|s.log|).effects);
    AllAffectedKeeps(s, env(|s.log|).effects);
    MarkInOrder(a, TickBegin);
    RecordMark(s.queue, s.slab, s.ledger, s.log, TickBegin);
    LoggedCalm(a, TickBegin);
    var b := Logged(a, TickBegin);
    DrainInOrder(b, b.wakes.(deferred := []), Deferred, b.wakes.deferred);
    DeferredDrainedKeeps(b);
    var d := DeferredDrained(b);
    AllPoppedTracks(d);
    ChannelIsNew(d);
    PopEmptiesExactly(d);
  }

  /** What waits in the channel was never delivered, when no id was sent twice. */
  lemma ChannelIsNew(s: Exec)
    requires Inv(s) && InOrder(s) && Distinct(s.sent)
    ensures AllNew(s.channel, s.ledger)
    ensures s.channel != [] ==> AllNew(s.channel[..|s.channel| - 1], s.ledger)
  {
    hide NoneLost, Consistent, FirstSeen;
    var n := |s.sent| - |s.channel|;
    FirstSeenMembers(s.sent[..n]);
    assert forall i :: 0 <= i < n ==> s.sent[..n][i] == s.sent[i];
    assert forall j :: 0 <= j < |s.channel| ==> s.channel[j] == s.sent[n + j];
  }

  predicate AnySend(arrivals: seq<Arrival>)
  {
    exists i :: 0 <= i < |arrivals| && arrivals[i].Send?
  }

  lemma {:induction false} ChannelAfter(s: Exec, arrivals: seq<Arrival>)
    ensures AllArrived(s, arrivals).channel != [] <==> s.channel != [] || AnySend(arrivals)
  {
    if arrivals != [] {
      var m := |arrivals| - 1;
      ChannelAfter(s, arrivals[..m]);
      assert arrivals == arrivals[..m] + [arrivals[m]];
      if AnySend(arrivals) && !arrivals[m].Send? {
        var i :| 0 <= i < |arrivals| && arrivals[i].Send?;
        assert arrivals[..m][i].Send?;
      }
    }
  }

  lemma PreparedChannel(env: Env, s: Exec)
    requires env(|s.log|).early == []
    ensures Prepared(env, s).channel == AtReset(env, s).channel
  {
  }

  /**
   Exactly when a park oversleeps, in a run in which no id was sent twice: the interrupt
   flag was stale when the tick began, nothing arrived since the park reset it, every queue
   is empty, and a task was spawned after the last receive, by a poll that used up the
   budget or by another thread before the reset.
   */
  lemma OversleepsExactly(env: Env, budget: nat, s: Exec)
    requires Inv(s) && InOrder(s)
    requires Distinct(AtReset(env, FirstLoop(env, budget, s).s).sent)
    requires ForeignOnly(env(|FirstLoop(env, budget, s).s.log|).early)
    ensures
      var park := FirstLoop(env, budget, s);
      var m := env(|park.s.log|);
      && (Oversleeps(env, park.s) <==>
           && RequiresTimeout(env, park.s) && !Heard(s.wakes)
           && m.early == [] && (park.s.channel != [] || AnySend(m.before)))
      && (park.s.channel != [] ==> park.count == budget)
  {
    hide Inv, InOrder, FirstLoop, Opened, AtReset, Prepared, RequiresTimeout, AllArrived, AnySend;
    var park := FirstLoop(env, budget, s);
    var l, m := park.s, env(|park.s.log|);
    var b := AtReset(env, l);
    FirstLoopKeeps(env, budget, s);
    CalmOf(l);
    FirstLoopTracks(env, budget, s);
    ArrivalsAtReset(env, l);
    SentDistinct(l.sent, b.sent);
    SentDistinct(Opened(env, s).sent, l.sent);
    OpenedEmptiesChannel(env, s);
    ResetThenHeard(env, l);
    if m.early == [] { PreparedChannel(env, l); }
    SpareBudget(env, budget, s);
  }

  lemma ArrivalsAtReset(env: Env, s: Exec)
    ensures Tracks(s, AtReset(env, s))
    ensures AtReset(env, s).channel != [] <==> s.channel != [] || AnySend(env(|s.log|).before)
  {
    hide Tracks, AllArrived;
    ArrivalsTrack(s, env(|s.log|).before);
    ChannelAfter(s, env(|s.log|).before);
  }

  lemma SentDistinct(a: seq<nat>, b: seq<nat>)
    requires a <= b && Distinct(b)
    ensures Distinct(a)
  {
    assert forall i :: 0 <= i < |a| ==> a[i] == b[i];
  }

  lemma SpareBudget(env: Env, budget: nat, s: Exec)
    requires Inv(s) && InOrder(s) && Distinct(FirstLoop(env, budget, s).s.sent)
    ensures FirstLoop(env, budget, s).s.channel != [] ==> FirstLoop(env, budget, s).count == budget
  {
    hide Inv, InOrder, Opened, PollLoop, AllAffected;
    OpenedKeeps(env, s);
    OpenedInOrder(env, s);
    PollLoopKeeps(env, budget, Opened(env, s), 0);
    if FirstLoop(env, budget, s).count < budget {
      SpareBudgetEmptiesChannel(env, budget, Opened(env, s), 0);
    }
  }

  /** A tick leaves the flag stale exactly when something arrived between its park's reset and its OS poll's end. */
  lemma StaleExactly(env: Env, budget: nat, s: Exec, woken: seq<Wake>)
    requires Inv(s)
    requires ForeignOnly(env(|FirstLoop(env, budget, s).s.log|).early)
    requires ForeignOnly(env(|FirstLoop(env, budget, s).s.log|).during)
    ensures
      var m := env(|FirstLoop(env, budget, s).s.log|);
      Heard(Tick(env, budget, s, woken).wakes) <==> m.early == [] && m.during == []
  {
    hide Inv, FirstLoop, PollLoop, Fired, ReactorDrained, TaskDrained, Tracks, AboutToFire;
    var park := FirstLoop(env, budget, s);
    FirstLoopKeeps(env, budget, s);
    CalmOf(park.s);
    FlagOutlivesPoll(env, park.s);
    FiringTracks(env, park.s, woken);
    var f := Fired(env, park.s, woken);
    var r := ReactorDrained(env, f);
    ReactorDrainedTracks(env, f);
    TaskDrainedTracks(r);
    var p := ThroughPark(env, budget, s, woken);
    PollLoopTracks(env, budget, p, park.count);
    var e := PollLoop(env, budget, p, park.count).s;
    TracksHeard(f, r);
    TracksHeard(r, p);
    TracksHeard(p, e);
  }

  /**
   The same in terms of the environment alone: in a run from the start, the park of the
   next tick oversleeps exactly when something arrived between the reset and the end of the
   OS poll of the park before, nothing since its own reset, and the rest as above.
   */
  lemma OversleepsInRuns(env: Env, budget: nat, fires: seq<seq<Wake>>)
    requires fires != []
    requires Distinct(AtReset(env, FirstLoop(env, budget, Run(env, budget, IDLE, fires)).s).sent)
    requires ForeignOnly(env(|FirstLoop(env, budget, Run(env, budget, IDLE, fires)).s.log|).early)
    requires
      var m := env(|FirstLoop(env, budget, Run(env, budget, IDLE, fires[..|fires| - 1])).s.log|);
      ForeignOnly(m.early) && ForeignOnly(m.during)
    ensures
      var last := env(|FirstLoop(env, budget, Run(env, budget, IDLE, fires[..|fires| - 1])).s.log|);
      var park := FirstLoop(env, budget, Run(env, budget, IDLE, fires));
      var m := env(|park.s.log|);
      Oversleeps(env, park.s) <==>
        && RequiresTimeout(env, park.s) && (last.early != [] || last.during != [])
        && m.early == [] && (park.s.channel != [] || AnySend(m.before))
  {
    hide Inv, InOrder, FirstLoop, Tick, AtReset, Prepared, RequiresTimeout, AnySend, Heard, Oversleeps;
    var m := |fires| - 1;
    RunInOrder(env, budget, fires);
    RunInOrder(env, budget, fires[..m]);
    OversleepsExactly(env, budget, Run(env, budget, IDLE, fires));
    StaleExactly(env, budget, Run(env, budget, IDLE, fires[..m]), fires[m]);
  }

  lemma TracksHeard(s: Exec, s': Exec)
    requires Tracks(s, s')
    ensures Heard(s.wakes) <==> Heard(s'.wakes)
  {
  }

  lemma {:induction false} WokenFlags(w: Wakes, woken: seq<Wake>)
    ensures AllWoken(w, woken).interrupted == w.interrupted && AllWoken(w, woken).signalled == w.signalled
  {
    if woken != [] {
      WokenFlags(w, woken[..|woken| - 1]);
    }
  }

  lemma FiringTracks(env: Env, s: Exec, woken: seq<Wake>)
    ensures Heard(AboutToFire(env, s).wakes) <==> Heard(Fired(env, s, woken).wakes)
  {
    hide AboutToFire, AllArrived, AllWoken, Expired, FireClock;
    var f := AboutToFire(env, s);
    WokenFlags(f.wakes, woken);
    ArrivalsTrack(
      f.(timers := Expired(f.timers, FireClock(env, s)), wakes := AllWoken(f.wakes, woken)), env(|s.log|).late);
  }

  // ---- runs that reach such a park ----

  /** Nothing happens, and a polled future stays pending. */
  const NOTHING: Moment := Moment([], false, [], [], [], [], 0)

  /** A wake from another thread for a task nobody knows. */
  const STRANGER: Arrival := WakeBy(Waker(0, ByTask, false), false)

  lemma EmptyOpening(env: Env, s: Exec)
    requires s.wakes.deferred == [] && s.channel == [] && env(|s.log|).effects == []
    ensures Opened(env, s) == s.(log := s.log + [TickBegin, Drain(Deferred, []), PopInjection(None)])
  {
    assert s.log + [TickBegin] + [Drain(Deferred, [])] + [PopInjection(None)]
        == s.log + [TickBegin, Drain(Deferred, []), PopInjection(None)];
  }

  lemma EmptyLoop(env: Env, budget: nat, s: Exec, count: nat)
    requires AllEmpty(s) && s.channel == [] && env(|s.log|).before == [] && count < budget
    ensures PollLoop(env, budget, s, count)
         == Loop(s.(log := s.log + [Drain(ReactorWake, []), Drain(TaskWake, []), PopInjection(None)]), count)
  {
    var r := ReactorDrained(env, s);
    assert r == s.(log := s.log + [Drain(ReactorWake, [])]);
    assert TaskDrained(r) == r.(log := r.log + [Drain(TaskWake, [])]);
    assert s.log + [Drain(ReactorWake, [])] + [Drain(TaskWake, [])] + [PopInjection(None)]
        == s.log + [Drain(ReactorWake, []), Drain(TaskWake, []), PopInjection(None)];
  }

  /** The state after one tick without tasks, during whose OS poll a foreign wake arrived. */
  ghost predicate Stale(s: Exec)
  {
    && AllEmpty(s) && s.channel == [] && s.sent == [] && s.ledger == {} && s.slab == {}
    && s.wakes.interrupted && !s.wakes.signalled && !s.wakes.yielded && |s.log| == 13
  }

  lemma StrangerDrained(env: Env, f: Exec)
    requires f.queue == [] && f.ledger == {} && env(|f.log|).before == []
    requires f.wakes.reactorReady == [] && f.wakes.taskReady == [] && f.wakes.cross == [0] && f.wakes.notified == {}
    ensures TaskDrained(ReactorDrained(env, f)) == f.(
      wakes := f.wakes.(cross := [], notified := {0}),
      log := f.log + [Drain(ReactorWake, []), Drain(TaskWake, [])])
  {
    var r := ReactorDrained(env, f);
    assert r == f.(log := f.log + [Drain(ReactorWake, [])]);
    assert [0][..0] == [];
    assert PushedAll(r.wakes, [0]) == PushedTask(r.wakes, 0);
    assert Kept([0], {}) == [];
    assert f.log + [Drain(ReactorWake, [])] + [Drain(TaskWake, [])]
        == f.log + [Drain(ReactorWake, []), Drain(TaskWake, [])];
  }

  lemma StrangerFired(env: Env, l: Exec)
    requires AllEmpty(l) && l.wakes == QUIET && l.timers == INITIAL && env(|l.log|) == NOTHING.(during := [STRANGER])
    ensures
      var f := Fired(env, l, []);
      f == l.(wakes := QUIET.(cross := [0], interrupted := true), log := l.log + [Park])
    ensures AboutToFire(env, l).timers == INITIAL
  {
    assert [STRANGER][..0] == [];
    assert AboutToFire(env, l) == l.(wakes := QUIET.(cross := [0], interrupted := true));
    assert TimerRuns.Due(map[], 0) == {};
    assert Expired(INITIAL, 0) == INITIAL;
  }

  /** The first tick of a run in which only a foreign wake arrives, during the OS poll. */
  lemma FirstTickStale(env: Env, budget: nat)
    requires 1 <= budget && (forall i: nat :: i < 13 && i != 6 ==> env(i) == NOTHING)
    requires env(6) == NOTHING.(during := [STRANGER])
    ensures Stale(Run(env, budget, IDLE, [[]])) && FiresWhatIsDue(env, budget, IDLE, [])
  {
    hide Opened, PollLoop, Fired, ReactorDrained, TaskDrained, AboutToFire;
    EmptyOpening(env, IDLE);
    var o := Opened(env, IDLE);
    EmptyLoop(env, budget, o, 0);
    var l := FirstLoop(env, budget, IDLE).s;
    assert |l.log| == 6;
    StrangerFired(env, l);
    var f := Fired(env, l, []);
    StrangerDrained(env, f);
    var p := ThroughPark(env, budget, IDLE, []);
    assert |p.log| == 9;
    EmptyLoop(env, budget, p, 0);
    var fires: seq<seq<Wake>> := [[]];
    assert fires[..0] == [];
    assert Run(env, budget, IDLE, []) == IDLE;
    assert Run(env, budget, IDLE, fires) == Tick(env, budget, IDLE, []);
  }

  lemma OneArrival(s: Exec, a: Arrival)
    ensures AllArrived(s, [a]) == Arrived(s, a)
  {
    assert [a][..0] == [];
  }

  /** Another thread spawns between the last receive and the reset. */
  function WindowEnv(i: nat): Moment
  {
    if i == 6 then NOTHING.(during := [STRANGER])
    else if i == 19 then NOTHING.(before := [Send(1)])
    else NOTHING
  }

  /** For every budget, with budget left: the second park sleeps on a task another thread just spawned. */
  lemma OversleepsOnForeignSpawn(budget: nat)
    requires 1 <= budget
    ensures
      var s := Run(WindowEnv, budget, IDLE, [[]]);
      var park := FirstLoop(WindowEnv, budget, s);
      && FiresWhatIsDue(WindowEnv, budget, IDLE, [])
      && Oversleeps(WindowEnv, park.s) && Prepared(WindowEnv, park.s).channel == [1] && park.count < budget
  {
    hide Opened, PollLoop, Run, FiresWhatIsDue;
    FirstTickStale(WindowEnv, budget);
    var s := Run(WindowEnv, budget, IDLE, [[]]);
    EmptyOpening(WindowEnv, s);
    EmptyLoop(WindowEnv, budget, Opened(WindowEnv, s), 0);
    var l := FirstLoop(WindowEnv, budget, s).s;
    assert |l.log| == 19;
    OneArrival(l, Send(1));
    assert WindowEnv(|l.log|).before == [Send(1)];
    assert AtReset(WindowEnv, l) == Arrived(l, Send(1));
  }

  // ---- a task spawned by the last poll the budget allows ----

  function Ids(n: nat): (ids: seq<nat>)
    ensures |ids| == n && forall i :: 0 <= i < n ==> ids[i] == i + 1
  {
    seq(n, i => i + 1)
  }

  function Spawns(n: nat): (effects: seq<Effect>)
    ensures |effects| == n && forall i :: 0 <= i < n ==> effects[i] == Arrive(Send(i + 1))
  {
    seq(n, (i: nat) => Arrive(Send(i + 1)))
  }

  lemma {:induction false} SpawnsSend(s: Exec, n: nat)
    requires s.wakes.interrupted
    ensures AllAffected(s, Spawns(n)) == s.(channel := s.channel + Ids(n), sent := s.sent + Ids(n))
  {
    if n > 0 {
      SpawnsSend(s, n - 1);
      assert Spawns(n)[..n - 1] == Spawns(n - 1);
      assert Ids(n) == Ids(n - 1) + [n];
      assert s.channel + Ids(n - 1) + [n] == s.channel + Ids(n) && s.sent + Ids(n - 1) + [n] == s.sent + Ids(n);
    }
  }

  /** Tasks that just stay pending use up the budget; the last one spawns. */
  lemma {:induction false} LoopSpends(env: Env, budget: nat, s: Exec, count: nat, spawned: nat)
    requires count < budget && |s.queue| == budget - count && s.channel == [] && s.wakes.interrupted
    requires forall t :: t in s.queue ==> t in s.slab
    requires forall i :: |s.log| <= i < |s.log| + |s.queue| - 1 ==> env(i) == NOTHING
    requires env(|s.log| + |s.queue| - 1) == NOTHING.(effects := [Arrive(Send(spawned))])
    ensures
      var r := PollLoop(env, budget, s, count);
      && r.count == budget && r.s.queue == [] && r.s.channel == [spawned] && |r.s.log| == |s.log| + |s.queue|
      && r.s.wakes == s.wakes.(notified := r.s.wakes.notified)
    decreases budget - count
  {
    var t, m := s.queue[0], env(|s.log|);
    var c := s.(queue := s.queue[1..], wakes := Cleared(s.wakes, t));
    var p := Polled(env, s);
    assert s.slab - {t} + {t} == s.slab;
    if |s.queue| == 1 {
      assert [Arrive(Send(spawned))][..0] == [];
      assert AllAffected(c.(slab := s.slab - {t}), m.effects) == Arrived(c.(slab := s.slab - {t}), Send(spawned));
      assert PollLoop(env, budget, p, count + 1) == Loop(p, budget);
    } else {
      assert p == Logged(c, PollTask(t, Pending));
      LoopSpends(env, budget, p, count + 1, spawned);
    }
  }

  /** `budget` tasks are spawned as the second tick begins, and the last of them spawns one more. */
  function SpawnEnv(budget: nat): Env
  {
    (i: nat) =>
      if i == 6 then NOTHING.(during := [STRANGER])
      else if i == 13 then NOTHING.(effects := Spawns(budget))
      else if i == 15 + 2 * budget then NOTHING.(effects := [Arrive(Send(budget + 1))])
      else NOTHING
  }

  lemma SpawnsAdmitted(env: Env, s: Exec, n: nat)
    requires Stale(s) && env(|s.log|) == NOTHING.(effects := Spawns(n))
    ensures
      var o := Opened(env, s);
      && o.queue == Ids(n) && o.slab == Members(Ids(n)) && o.channel == [] && |o.log| == 16 + n && o.wakes == s.wakes
  {
    hide AllPopped, AllAffected, FreshLen;
    SpawnsSend(s, n);
    var a := AllAffected(s, Spawns(n));
    var d := DeferredDrained(Logged(a, TickBegin));
    assert d == a.(log := s.log + [TickBegin] + [Drain(Deferred, [])]);
    AllPoppedExact(d);
    AllPoppedTracks(d);
    assert d.channel == Ids(n) && d.queue == [] && Ids(n)[..n] == Ids(n);
    assert AllNew(Ids(n), {});
    NewIffFresh(Ids(n), {}, n);
  }

  /** For every budget: the second park sleeps on a task spawned by the last poll its budget allowed. */
  lemma OversleepsOnOwnSpawn(budget: nat)
    requires 1 <= budget
    ensures
      var env := SpawnEnv(budget);
      var s := Run(env, budget, IDLE, [[]]);
      var park := FirstLoop(env, budget, s);
      && FiresWhatIsDue(env, budget, IDLE, [])
      && Oversleeps(env, park.s) && park.s.channel == [budget + 1] && park.count == budget
  {
    hide Opened, PollLoop, Run, FiresWhatIsDue;
    var env := SpawnEnv(budget);
    FirstTickStale(env, budget);
    var s := Run(env, budget, IDLE, [[]]);
    SpawnsAdmitted(env, s, budget);
    var o := Opened(env, s);
    LoopSpends(env, budget, o, 0, budget + 1);
    var l := FirstLoop(env, budget, s).s;
    assert env(|l.log|) == NOTHING;
    assert AtReset(env, l) == l;
  }
}
