/** From the registration of a timer, inside a poll, to the poll of its task. */
module TimerRegistration {
  import opened Options
  import opened WakeModel
  import opened ReactorModel
  import opened ExecLog
  import opened ExecModel
  import opened ExecInvariant
  import opened BoundedWaiting
  import opened TickGrammar
  import opened WakeDelivery
  import opened WakeServed
  import opened TimerLiveness

  // ---- the poll behind a log position ----

  /** The state in which a poll loop takes the poll that it logs at position `i`. */
  function BeforePoll(env: Env, budget: nat, s: Exec, count: nat, i: nat): Exec
    decreases budget - count
  {
    var r := Refilled(env, s);
    if count >= budget || r.queue == [] || |r.log| >= i then r
    else BeforePoll(env, budget, Polled(env, r), count + 1, i)
  }

  /** The same for a tick and its two poll loops. */
  function PollIn(env: Env, budget: nat, s: Exec, woken: seq<Wake>, i: nat): Exec
  {
    var first := FirstLoop(env, budget, s);
    if i < |first.s.log| then BeforePoll(env, budget, Opened(env, s), 0, i)
    else BeforePoll(env, budget, ThroughPark(env, budget, s, woken), first.count, i)
  }

  ghost predicate RealPoll(l: Log, i: nat)
  {
    i < |l| && l[i].PollTask? && l[i].outcome != Invalid
  }

  ghost predicate TakesPoll(x: Exec, l: Log, i: nat)
  {
    && Inv(x) && i <= |l| && x.log == l[..i] && x.queue != [] && x.queue[0] in x.slab
  }

  lemma {:induction false} BeforePollIs(env: Env, budget: nat, s: Exec, count: nat, i: nat)
    requires Inv(s) && |s.log| <= i && RealPoll(PollLoop(env, budget, s, count).s.log, i)
    ensures
      var x := BeforePoll(env, budget, s, count, i);
      TakesPoll(x, PollLoop(env, budget, s, count).s.log, i) && x.timers.now == s.timers.now
    decreases budget - count
  {
    hide Inv, Refilled, Polled;
    RefilledLog(env, s);
    RefilledKeeps(env, s);
    var r := Refilled(env, s);
    if count < budget && r.queue != [] {
      var p := Polled(env, r);
      PolledKeeps(env, r);
      PolledOutcome(env, r);
      PollLoopKeeps(env, budget, p, count + 1);
      if |r.log| < i {
        BeforePollIs(env, budget, p, count + 1, i);
      }
    }
  }

  /** The poll taken in that state is the one logged at `i`. */
  lemma {:induction false} BeforePollLeads(env: Env, budget: nat, s: Exec, count: nat, i: nat)
    requires Inv(s) && |s.log| <= i && RealPoll(PollLoop(env, budget, s, count).s.log, i)
    ensures
      var x := BeforePoll(env, budget, s, count, i);
      x.queue != [] && Polled(env, x).log <= PollLoop(env, budget, s, count).s.log
    decreases budget - count
  {
    hide Inv, Refilled, Polled;
    RefilledLog(env, s);
    RefilledKeeps(env, s);
    var r := Refilled(env, s);
    if count < budget && r.queue != [] {
      var p := Polled(env, r);
      PolledKeeps(env, r);
      PollLoopKeeps(env, budget, p, count + 1);
      if |r.log| < i {
        BeforePollLeads(env, budget, p, count + 1, i);
      }
    }
  }

  /** Of a tick, in either of its poll loops. */
  lemma TickPollIs(env: Env, budget: nat, s: Exec, woken: seq<Wake>, i: nat)
    requires Inv(s) && |s.log| <= i && RealPoll(Tick(env, budget, s, woken).log, i)
    ensures
      var x, s' := PollIn(env, budget, s, woken, i), Tick(env, budget, s, woken);
      && TakesPoll(x, s'.log, i) && Polled(env, x).log <= s'.log
      && x.timers.now == (if i < |FirstLoop(env, budget, s).s.log| then s else s').timers.now
  {
    hide Inv, Opened, PollLoop, ParkedOnce, Parked, FireClock, BeforePoll, Polled;
    var o, first, park := Opened(env, s), FirstLoop(env, budget, s), ThroughPark(env, budget, s, woken);
    var s' := Tick(env, budget, s, woken);
    OpenedKeeps(env, s);
    OpenedShapeOnly(env, s);
    PollLoopKeeps(env, budget, o, 0);
    ParkedKeeps(env, first.s, woken);
    ParkShape(env, first.s, woken);
    PollLoopKeeps(env, budget, park, first.count);
    TickKeeps(env, budget, s, woken);
    if i < |first.s.log| {
      assert s'.log[i] == first.s.log[i];
      BeforePollIs(env, budget, o, 0, i);
      BeforePollLeads(env, budget, o, 0, i);
      assert s'.log[..i] == first.s.log[..i];
    } else {
      var last := PollLoop(env, budget, park, first.count).s;
      assert s'.log == last.log + [TickEnd];
      assert s'.log[i] == last.log[i];
      BeforePollIs(env, budget, park, first.count, i);
      BeforePollLeads(env, budget, park, first.count, i);
      assert s'.log[..i] == last.log[..i];
    }
  }

  // ---- the registration ----

  /** The state of the poll taken in `x` after the first `j` effects of its future. */
  function Midway(env: Env, x: Exec, j: nat): Exec
    requires x.queue != [] && j <= |env(|x.log|).effects|
  {
    var t := x.queue[0];
    var c := x.(queue := x.queue[1..], wakes := Cleared(x.wakes, t), slab := x.slab - {t});
    AllAffected(c, env(|x.log|).effects[..j])
  }

  /**
   Effect `j` of the poll taken in `x` registers a timer for `d`, ahead of the clock, gets
   the id `rid`, and nothing later in that poll cancels it.
   */
  ghost predicate Registers(env: Env, x: Exec, j: nat, rid: nat, d: nat, k: Waker)
  {
    var effects := env(|x.log|).effects;
    && x.queue != [] && j < |effects| && effects[j] == RegisterTimer(d, k)
    && x.timers.now < d
    && RegisteredId(Midway(env, x, j).timers, d) == Some(rid)
    && DeregisterTimer(rid) !in effects[j + 1..]
  }

  lemma {:induction false} AffectedSplit(s: Exec, effects: seq<Effect>, j: nat)
    requires j <= |effects|
    ensures AllAffected(s, effects) == AllAffected(AllAffected(s, effects[..j]), effects[j..])
    decreases |effects| - j, |effects|
  {
    hide Affected;
    var m := |effects| - 1;
    if j == |effects| {
      assert effects[..j] == effects && effects[j..] == [];
    } else {
      AffectedSplit(s, effects[..m], j);
      assert effects[..m][..j] == effects[..j];
      assert effects[j..][..m - j] == effects[..m][j..];
    }
  }

  lemma PollSets(env: Env, x: Exec, j: nat, rid: nat, d: nat, k: Waker)
    requires Inv(x) && Registers(env, x, j, rid, d, k) && x.queue[0] in x.slab
    ensures Set(Polled(env, x).timers, rid, d, k)
  {
    hide Recorded, Consistent, NoneLost, Set, AllAffected, Affected;
    var t, effects := x.queue[0], env(|x.log|).effects;
    assert x.queue == [t] + x.queue[1..];
    HeadTaken(x.wakes, t, x.queue[1..], x.ledger);
    var c := x.(queue := x.queue[1..], wakes := Cleared(x.wakes, t), slab := x.slab - {t});
    var a := Midway(env, x, j);
    AllAffectedKeeps(c, effects[..j]);
    RegisteringSets(a, d, k);
    var b := Affected(a, effects[j]);
    OneMore(c, effects, j);
    AllAffectedKeeps(c, effects[..j + 1]);
    AllAffectedKeepsSet(b, effects[j + 1..], rid, d, k);
    AffectedSplit(c, effects, j + 1);
  }

  lemma OneMore(s: Exec, effects: seq<Effect>, j: nat)
    requires j < |effects|
    ensures AllAffected(s, effects[..j + 1]) == Affected(AllAffected(s, effects[..j]), effects[j])
  {
    hide Affected;
    assert effects[..j + 1][..j] == effects[..j];
  }

  lemma {:induction false} LoopSets(
      env: Env, budget: nat, s: Exec, count: nat, i: nat, j: nat, rid: nat, d: nat, k: Waker)
    requires Inv(s) && |s.log| <= i && RealPoll(PollLoop(env, budget, s, count).s.log, i)
    requires Registers(env, BeforePoll(env, budget, s, count, i), j, rid, d, k)
    requires NeverCancelled(env, i + 1, rid)
    ensures Set(PollLoop(env, budget, s, count).s.timers, rid, d, k)
    decreases budget - count
  {
    hide Inv, Refilled, Polled, Registers, Set;
    RefilledLog(env, s);
    RefilledKeeps(env, s);
    var r := Refilled(env, s);
    if count < budget && r.queue != [] {
      var p := Polled(env, r);
      PolledKeeps(env, r);
      PolledOutcome(env, r);
      PollLoopKeeps(env, budget, p, count + 1);
      if |r.log| < i {
        LoopSets(env, budget, p, count + 1, i, j, rid, d, k);
      } else {
        PollSets(env, r, j, rid, d, k);
        PollLoopKeepsSet(env, budget, p, count + 1, rid, d, k);
      }
    }
  }

  /** From the registration to the end of its tick: fired by that tick's park, or still set. */
  lemma TickFromRegistration(
      env: Env, budget: nat, s: Exec, woken: seq<Wake>, i: nat, j: nat, rid: nat, d: nat, k: Waker)
    requires Inv(s) && |s.log| <= i && RealPoll(Tick(env, budget, s, woken).log, i)
    requires Registers(env, PollIn(env, budget, s, woken, i), j, rid, d, k)
    requires NeverCancelled(env, i + 1, rid) && FiresWhatIsDue(env, budget, s, woken)
    requires !k.defer && k.task in Injected(Tick(env, budget, s, woken).log[..i])
    ensures
      var x, s' := PollIn(env, budget, s, woken, i), Tick(env, budget, s, woken);
      if i < |FirstLoop(env, budget, s).s.log| then
        && x.timers.now == s.timers.now
        && (if ClockReaches(env, budget, s, d) then k.task in ThroughPark(env, budget, s, woken).queue
            else Set(s'.timers, rid, d, k))
      else x.timers.now == s'.timers.now && Set(s'.timers, rid, d, k)
    ensures k.task in Tick(env, budget, s, woken).ledger
  {
    hide Inv, Opened, PollLoop, ParkedOnce, Parked, Set, Registers, FireClock, BeforePoll, Enumerates;
    hide AboutToFire, Injected;
    var o, first, park := Opened(env, s), FirstLoop(env, budget, s), ThroughPark(env, budget, s, woken);
    var s' := Tick(env, budget, s, woken);
    var last := PollLoop(env, budget, park, first.count).s;
    OpenedKeeps(env, s);
    OpenedShapeOnly(env, s);
    FirstLoopKeeps(env, budget, s);
    PollLoopKeeps(env, budget, o, 0);
    ParkedKeeps(env, first.s, woken);
    ParkShape(env, first.s, woken);
    PollLoopKeeps(env, budget, park, first.count);
    TickKeeps(env, budget, s, woken);
    KnownLater(s', s'.log, i, k.task);
    if i < |first.s.log| {
      assert s'.log[i] == first.s.log[i];
      BeforePollIs(env, budget, o, 0, i);
      LoopSets(env, budget, o, 0, i, j, rid, d, k);
      KnownLater(first.s, s'.log, i, k.task);
      ParkSetOrFires(env, first.s, woken, rid, d, k);
      if !ClockReaches(env, budget, s, d) {
        PollLoopKeepsSet(env, budget, park, first.count, rid, d, k);
      }
    } else {
      BeforePollIs(env, budget, park, first.count, i);
      LoopSets(env, budget, park, first.count, i, j, rid, d, k);
    }
  }

  lemma OpenedShapeOnly(env: Env, s: Exec)
    requires Inv(s)
    ensures s.log <= Opened(env, s).log && Opened(env, s).timers.now == s.timers.now
    ensures forall i :: |s.log| <= i < |Opened(env, s).log| ==> !Opened(env, s).log[i].PollTask?
  {
    hide Recorded, Calm, AllAffected, Opened;
    OpenedShape(env, s);
    OpenedKeeps(env, s);
    AllAffectedKeeps(s, env(|s.log|).effects);
  }

  // ---- runs ----

  /** The timer is due at tick `m`, its task stands at index `p` right after that tick's park, and is polled in time. */
  ghost predicate DeliveredAt(env: Env, budget: nat, s: Exec, fires: seq<seq<Wake>>, m: nat, p: nat, d: nat, t: nat)
    requires 1 <= budget && m < |fires|
  {
    var r := Run(env, budget, s, fires[..m]);
    var park := ThroughPark(env, budget, r, fires[m]);
    && ClockReaches(env, budget, r, d)
    && p < |park.queue| && park.queue[p] == t
    && (|fires| >= m + p / budget + 2 ==> PolledSince(Run(env, budget, s, fires).log, |park.log|, t))
  }

  /** The same theorem as for a set timer, from tick `n` of a longer run. */
  lemma SetDelivered(env: Env, budget: nat, s: Exec, fires: seq<seq<Wake>>, n: nat, rid: nat, d: nat, k: Waker)
    returns (m: nat, p: nat)
    requires Inv(s) && 1 <= budget && n <= |fires|
    requires
      var r := Run(env, budget, s, fires[..n]);
      && Set(r.timers, rid, d, k) && NeverCancelled(env, |r.log|, rid) && k.task in r.ledger && !k.defer
      && Proper(env, budget, r, fires[n..]) && |fires| - n >= d - r.timers.now
    ensures n <= m < |fires| && m - n < d - Run(env, budget, s, fires[..n]).timers.now
    ensures DeliveredAt(env, budget, s, fires, m, p, d, k.task)
    ensures forall q :: n <= q < m ==> !ClockReaches(env, budget, Run(env, budget, s, fires[..q]), d)
  {
    hide Inv, Set, Tick, ThroughPark, FirstLoop, FireClock, ClockReaches, Proper;
    RunKeeps(env, budget, s, fires[..n]);
    var r := Run(env, budget, s, fires[..n]);
    RunSplit(env, budget, s, fires, n);
    var w;
    w, p := TimerPolledInTime(env, budget, r, fires[n..], rid, d, k);
    m := n + w;
    assert fires[n..][w] == fires[m];
    forall q | n <= q <= m
      ensures Run(env, budget, r, fires[n..][..q - n]) == Run(env, budget, s, fires[..q])
    {
      RunSplit(env, budget, s, fires[..q], n);
      assert fires[..q][..n] == fires[..n] && fires[..q][n..] == fires[n..][..q - n];
    }
    forall q | n <= q < m
      ensures !ClockReaches(env, budget, Run(env, budget, s, fires[..q]), d)
    {
      assert !ClockReaches(env, budget, Run(env, budget, r, fires[n..][..q - n]), d);
    }
  }

  lemma ProperTail(env: Env, budget: nat, s: Exec, fires: seq<seq<Wake>>)
    requires fires != [] && Proper(env, budget, s, fires)
    ensures ProperAt(env, budget, s, fires[0])
    ensures Proper(env, budget, Tick(env, budget, s, fires[0]), fires[1..])
  {
    hide Tick, ProperAt;
    assert fires[..0] == [];
    assert ProperAt(env, budget, Run(env, budget, s, fires[..0]), fires[0]);
    forall i | 0 <= i < |fires[1..]|
      ensures ProperAt(env, budget, Run(env, budget, Tick(env, budget, s, fires[0]), fires[1..][..i]), fires[1..][i])
    {
      RunSplit(env, budget, s, fires[..i + 1], 1);
      RunNext(env, budget, s, fires, 0);
      assert fires[..i + 1][..1] == fires[..0 + 1] && fires[..i + 1][1..] == fires[1..][..i];
      assert ProperAt(env, budget, Run(env, budget, s, fires[..i + 1]), fires[i + 1]);
    }
  }

  /**
   End to end, from the registration: the future polled at log position `i` of tick `n`
   registers a timer for `d`, at effect `j`, and neither that poll nor a later one cancels
   it; from tick `n` on the parks read ever larger clocks. Then the first park after the
   registration whose clock reaches `d` comes within `d - now` ticks of tick `n`, `now`
   being the clock at the registration; it puts the task at some index `p` of the local
   queue, and the task is polled within `p / budget + 1` further ticks.
   */
  lemma RegisteredTimerServed(
      env: Env, budget: nat, s: Exec, fires: seq<seq<Wake>>, n: nat, i: nat, j: nat, rid: nat, d: nat, k: Waker)
    returns (m: nat, p: nat)
    requires Inv(s) && 1 <= budget && n < |fires|
    requires
      var r := Run(env, budget, s, fires[..n]);
      var x := PollIn(env, budget, r, fires[n], i);
      && |r.log| <= i && RealPoll(Run(env, budget, s, fires[..n + 1]).log, i)
      && Registers(env, x, j, rid, d, k) && NeverCancelled(env, i + 1, rid)
      && !k.defer && k.task in Injected(Run(env, budget, s, fires[..n + 1]).log[..i])
      && Proper(env, budget, r, fires[n..]) && |fires| - n > d - x.timers.now
    ensures
      var r := Run(env, budget, s, fires[..n]);
      var first := if i < |FirstLoop(env, budget, r).s.log| then n else n + 1;
      && first <= m < |fires| && m - n <= d - PollIn(env, budget, r, fires[n], i).timers.now
      && (forall q :: first <= q < m ==> !ClockReaches(env, budget, Run(env, budget, s, fires[..q]), d))
    ensures DeliveredAt(env, budget, s, fires, m, p, d, k.task)
  {
    hide Inv, Set, Tick, ThroughPark, FirstLoop, FireClock, ClockReaches, Proper, Registers, PollIn, Injected;
    hide Enumerates;
    RunIsTick(env, budget, s, fires, n);
    var r, r' := Run(env, budget, s, fires[..n]), Run(env, budget, s, fires[..n + 1]);
    assert fires[n..][0] == fires[n] && fires[n..][1..] == fires[n + 1..];
    ProperTail(env, budget, r, fires[n..]);
    TickFromRegistration(env, budget, r, fires[n], i, j, rid, d, k);
    TickKeeps(env, budget, r, fires[n]);
    RegistersAhead(env, PollIn(env, budget, r, fires[n], i), j, rid, d, k);
    if i < |FirstLoop(env, budget, r).s.log| && ClockReaches(env, budget, r, d) {
      m := n;
      p := DeliveredNow(env, budget, s, fires, n, d, k.task);
    } else {
      NeverLater(env, i + 1, |r'.log|, rid);
      m, p := SetDelivered(env, budget, s, fires, n + 1, rid, d, k);
    }
  }

  lemma RegistersAhead(env: Env, x: Exec, j: nat, rid: nat, d: nat, k: Waker)
    requires Registers(env, x, j, rid, d, k)
    ensures x.timers.now < d
  {
  }

  lemma NeverLater(env: Env, from: nat, from': nat, rid: nat)
    requires NeverCancelled(env, from, rid) && from <= from'
    ensures NeverCancelled(env, from', rid)
  {
  }

  lemma DeliveredNow(env: Env, budget: nat, s: Exec, fires: seq<seq<Wake>>, n: nat, d: nat, t: nat) returns (p: nat)
    requires Inv(s) && 1 <= budget && n < |fires|
    requires ClockReaches(env, budget, Run(env, budget, s, fires[..n]), d)
    requires t in ThroughPark(env, budget, Run(env, budget, s, fires[..n]), fires[n]).queue
    ensures DeliveredAt(env, budget, s, fires, n, p, d, t)
  {
    hide Inv, Tick, ThroughPark, ClockReaches;
    RunKeeps(env, budget, s, fires[..n]);
    var r := Run(env, budget, s, fires[..n]);
    RunSplit(env, budget, s, fires, n);
    assert fires[n..][0] == fires[n];
    var park := ThroughPark(env, budget, r, fires[n]);
    p :| 0 <= p < |park.queue| && park.queue[p] == t;
    if |fires| >= n + p / budget + 2 {
      PolledAfterPark(env, budget, r, fires[n..], p);
    }
  }
}
