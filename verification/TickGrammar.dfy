/** The order of events in every run's log, tick by tick. */
module TickGrammar {
  import opened Options
  import opened WakeModel
  import opened ReactorModel
  import opened ExecLog
  import opened ExecModel
  import opened ExecInvariant
  import opened BoundedWaiting

  // ---- the nine properties, at a tick boundary ----

  /** No tick begins or ends strictly between `i` and `j`. */
  predicate SameTick(l: Log, i: nat, j: nat)
    requires j <= |l|
  {
    forall k :: i < k < j ==> l[k] != TickBegin && l[k] != TickEnd
  }

  /** E1: a park is followed by a drain of reactor wakes in the same tick. */
  ghost predicate ParkThenDrain(l: Log)
  {
    forall i :: 0 <= i < |l| && l[i] == Park ==>
      exists j :: i < j < |l| && l[j].Drain? && l[j].source == ReactorWake && SameTick(l, i, j)
  }

  /** E2: a tick that begins with a non-empty queue polls before it ends. */
  ghost predicate RunnableIsPolled(l: Log)
  {
    forall i :: 0 <= i < |l| && l[i] == TickBegin && Fifo(l[..i]) != [] ==>
      exists j :: i < j < |l| && l[j].PollTask? && SameTick(l, i, j)
  }

  /** E3: polls happen inside ticks only. */
  ghost predicate PollsInTicks(l: Log)
  {
    forall i :: 0 <= i < |l| && l[i].PollTask? ==> exists b :: 0 <= b < i && l[b] == TickBegin && SameTick(l, b, i)
  }

  /** E4: only injected tasks are polled, and Invalid means exactly that the task completed before. */
  ghost predicate ValidPolls(l: Log)
  {
    forall i :: 0 <= i < |l| && l[i].PollTask? ==>
      && l[i].task in Injected(l[..i])
      && (l[i].outcome == Invalid <==> l[i].task in Completed(l[..i]))
  }

  /** E5: every tick has a park. */
  ghost predicate TicksPark(l: Log)
  {
    forall i :: 0 <= i < |l| && l[i] == TickEnd ==> exists p :: 0 <= p < i && l[p] == Park && SameTick(l, p, i)
  }

  /** E6: every tick pops the injection channel. */
  ghost predicate TicksPop(l: Log)
  {
    forall i :: 0 <= i < |l| && l[i] == TickEnd ==> exists p :: 0 <= p < i && l[p].PopInjection? && SameTick(l, p, i)
  }

  /** E7 and E8: every tick drains the deferred queue and the task wakes. */
  ghost predicate TicksDrain(l: Log, source: Source)
  {
    forall i :: 0 <= i < |l| && l[i] == TickEnd ==>
      exists p :: 0 <= p < i && l[p].Drain? && l[p].source == source && SameTick(l, p, i)
  }

  /** E9: every poll takes the head of the replayed queue. */
  ghost predicate PollsHead(l: Log)
  {
    forall i :: 0 <= i < |l| && l[i].PollTask? ==> Fifo(l[..i]) != [] && Fifo(l[..i])[0] == l[i].task
  }

  ghost predicate Grammar(l: Log)
  {
    && ParkThenDrain(l) && RunnableIsPolled(l) && PollsInTicks(l) && ValidPolls(l)
    && TicksPark(l) && TicksPop(l) && TicksDrain(l, Deferred) && TicksDrain(l, TaskWake) && PollsHead(l)
  }

  // ---- one tick's events ----

  /** What may stand between the landmarks of a tick. */
  predicate Plain(e: Event)
  {
    e.PollTask? || e.PopInjection? || e.Drain?
  }

  /** The landmarks of one tick's events. */
  ghost predicate Landmarks(l0: Log, l: Log, p: nat)
  {
    var b, e := |l0|, |l| - 1;
    && b + 2 < p < p + 2 < e && l0 <= l
    && l[b] == TickBegin && l[b + 1].Drain? && l[b + 1].source == Deferred && l[b + 2].PopInjection?
    && l[p] == Park && l[p + 1].Drain? && l[p + 1].source == ReactorWake
    && l[p + 2].Drain? && l[p + 2].source == TaskWake
    && l[e] == TickEnd
    && (forall i :: b < i < e && i != p ==> Plain(l[i]))
  }

  /** `l` is `l0` and the events of one whole tick whose park is at `p`; it polls if it began with a queue. */
  ghost predicate OneTick(l0: Log, l: Log, p: nat)
  {
    && Landmarks(l0, l, p)
    && (Fifo(l0) != [] ==> exists j :: |l0| < j < |l| - 1 && l[j].PollTask?)
  }

  /** Positions of the old log keep their events, and their tick. */
  lemma SameTickOld(l0: Log, l: Log, i: nat, j: nat)
    requires l0 <= l && j <= |l0|
    ensures SameTick(l, i, j) <==> SameTick(l0, i, j)
  {
    assert forall k :: 0 <= k < j ==> l[k] == l0[k];
  }

  lemma SameTickNew(l0: Log, l: Log, p: nat, i: nat, j: nat)
    requires OneTick(l0, l, p) && |l0| <= i <= j <= |l| - 1
    ensures SameTick(l, i, j)
  {
  }

  lemma GrowParkThenDrain(l0: Log, l: Log, p: nat)
    requires OneTick(l0, l, p) && ParkThenDrain(l0)
    ensures ParkThenDrain(l)
  {
    forall i | 0 <= i < |l| && l[i] == Park
      ensures exists j :: i < j < |l| && l[j].Drain? && l[j].source == ReactorWake && SameTick(l, i, j)
    {
      if i < |l0| {
        assert l0[i] == l[i];
        var j :| i < j < |l0| && l0[j].Drain? && l0[j].source == ReactorWake && SameTick(l0, i, j);
        SameTickOld(l0, l, i, j);
        assert l[j] == l0[j];
      } else {
        assert i == p;
        SameTickNew(l0, l, p, i, p + 1);
      }
    }
  }

  lemma GrowRunnable(l0: Log, l: Log, p: nat)
    requires OneTick(l0, l, p) && RunnableIsPolled(l0)
    ensures RunnableIsPolled(l)
  {
    forall i | 0 <= i < |l| && l[i] == TickBegin && Fifo(l[..i]) != []
      ensures exists j :: i < j < |l| && l[j].PollTask? && SameTick(l, i, j)
    {
      if i < |l0| {
        assert l[..i] == l0[..i] && l0[i] == l[i];
        var j :| i < j < |l0| && l0[j].PollTask? && SameTick(l0, i, j);
        SameTickOld(l0, l, i, j);
        assert l[j] == l0[j];
      } else {
        assert i == |l0| && l[..i] == l0;
        var j :| i < j < |l| - 1 && l[j].PollTask?;
        SameTickNew(l0, l, p, i, j);
      }
    }
  }

  lemma GrowPollsInTicks(l0: Log, l: Log, p: nat)
    requires OneTick(l0, l, p) && PollsInTicks(l0)
    ensures PollsInTicks(l)
  {
    forall i | 0 <= i < |l| && l[i].PollTask?
      ensures exists b :: 0 <= b < i && l[b] == TickBegin && SameTick(l, b, i)
    {
      if i < |l0| {
        assert l0[i] == l[i];
        var b :| 0 <= b < i && l0[b] == TickBegin && SameTick(l0, b, i);
        SameTickOld(l0, l, b, i);
        assert l[b] == l0[b];
      } else {
        SameTickNew(l0, l, p, |l0|, i);
      }
    }
  }

  lemma GrowTicksPark(l0: Log, l: Log, p: nat)
    requires OneTick(l0, l, p) && TicksPark(l0)
    ensures TicksPark(l)
  {
    forall i | 0 <= i < |l| && l[i] == TickEnd
      ensures exists q :: 0 <= q < i && l[q] == Park && SameTick(l, q, i)
    {
      if i < |l0| {
        assert l0[i] == l[i];
        var q :| 0 <= q < i && l0[q] == Park && SameTick(l0, q, i);
        SameTickOld(l0, l, q, i);
        assert l[q] == l0[q];
      } else {
        SameTickNew(l0, l, p, p, i);
      }
    }
  }

  lemma GrowTicksPop(l0: Log, l: Log, p: nat)
    requires OneTick(l0, l, p) && TicksPop(l0)
    ensures TicksPop(l)
  {
    forall i | 0 <= i < |l| && l[i] == TickEnd
      ensures exists q :: 0 <= q < i && l[q].PopInjection? && SameTick(l, q, i)
    {
      if i < |l0| {
        assert l0[i] == l[i];
        var q :| 0 <= q < i && l0[q].PopInjection? && SameTick(l0, q, i);
        SameTickOld(l0, l, q, i);
        assert l[q] == l0[q];
      } else {
        SameTickNew(l0, l, p, |l0| + 2, i);
      }
    }
  }

  lemma GrowTicksDrain(l0: Log, l: Log, p: nat, source: Source)
    requires OneTick(l0, l, p) && TicksDrain(l0, source)
    ensures TicksDrain(l, source)
  {
    var at := if source == Deferred then |l0| + 1 else if source == ReactorWake then p + 1 else p + 2;
    forall i | 0 <= i < |l| && l[i] == TickEnd
      ensures exists q :: 0 <= q < i && l[q].Drain? && l[q].source == source && SameTick(l, q, i)
    {
      if i < |l0| {
        assert l0[i] == l[i];
        var q :| 0 <= q < i && l0[q].Drain? && l0[q].source == source && SameTick(l0, q, i);
        SameTickOld(l0, l, q, i);
        assert l[q] == l0[q];
      } else {
        assert l[at].Drain? && l[at].source == source;
        SameTickNew(l0, l, p, at, i);
      }
    }
  }

  lemma PollProperties(l: Log)
    requires PollsOk(l)
    ensures ValidPolls(l) && PollsHead(l)
  {
    forall i | 0 <= i < |l| && l[i].PollTask?
      ensures PollOk(l[..i], l[i])
    {
      PollOkAt(l, i);
    }
  }

  lemma GrammarGrows(l0: Log, l: Log, p: nat)
    requires Grammar(l0) && OneTick(l0, l, p) && PollsOk(l)
    ensures Grammar(l)
  {
    hide OneTick, ParkThenDrain, RunnableIsPolled, PollsInTicks, ValidPolls;
    hide TicksPark, TicksPop, TicksDrain, PollsHead, PollsOk;
    GrowParkThenDrain(l0, l, p);
    GrowRunnable(l0, l, p);
    GrowPollsInTicks(l0, l, p);
    GrowTicksPark(l0, l, p);
    GrowTicksPop(l0, l, p);
    GrowTicksDrain(l0, l, p, Deferred);
    GrowTicksDrain(l0, l, p, TaskWake);
    PollProperties(l);
  }

  // ---- a tick's phases append such events ----

  /** `l` extends `l0` by plain events. */
  ghost predicate PlainlyExtends(l0: Log, l: Log)
  {
    l0 <= l && forall i :: |l0| <= i < |l| ==> Plain(l[i])
  }

  lemma AdmittedPlain(s: Exec)
    ensures PlainlyExtends(s.log, Admitted(s).log) && Admitted(s).log == s.log + [PopInjection(Accepts(s))]
    ensures Accepts(s).Some? ==> |Admitted(s).channel| < |s.channel|
  {
  }

  lemma {:induction false} AllPoppedPlain(s: Exec)
    ensures s.log <= AllPopped(s).log && |s.log| < |AllPopped(s).log|
    ensures forall i :: |s.log| <= i < |AllPopped(s).log| ==> AllPopped(s).log[i].PopInjection?
    decreases |s.channel|
  {
    hide Admitted;
    AdmittedPlain(s);
    if Accepts(s).Some? {
      AllPoppedPlain(Admitted(s));
    }
  }

  lemma ReactorDrainedLog(env: Env, s: Exec)
    requires Calm(s)
    ensures
      var l := ReactorDrained(env, s).log;
      && |l| == |s.log| + 1 && s.log <= l && l == s.log + [l[|s.log|]]
      && l[|s.log|].Drain? && l[|s.log|].source == ReactorWake
  {
    hide Kept, AllArrived, Calm;
    AllArrivedKeeps(s, env(|s.log|).before);
  }

  lemma TaskDrainedLog(s: Exec)
    ensures
      var l := TaskDrained(s).log;
      && |l| == |s.log| + 1 && s.log <= l && l == s.log + [l[|s.log|]]
      && l[|s.log|].Drain? && l[|s.log|].source == TaskWake
  {
    hide Kept, CrossDrained;
  }

  /** What choosing a task logs: nothing, or the two drains, or the drains and a pop. */
  lemma RefilledLog(env: Env, s: Exec)
    requires Inv(s)
    ensures
      var l := Refilled(env, s).log;
      && s.log <= l && |l| <= |s.log| + 3
      && (|l| > |s.log| ==> s.queue == [] && l[|s.log|].Drain? && l[|s.log|].source == ReactorWake)
      && (|l| > |s.log| + 1 ==> l[|s.log| + 1].Drain? && l[|s.log| + 1].source == TaskWake)
      && (|l| > |s.log| + 2 ==> l[|s.log| + 2].PopInjection?)
  {
    hide ReactorDrained, TaskDrained, Admitted, Recorded, NoneLost, Consistent;
    if s.queue == [] {
      ReactorDrainedLog(env, s);
      TaskDrainedLog(ReactorDrained(env, s));
      AdmittedPlain(TaskDrained(ReactorDrained(env, s)));
    }
  }

  lemma {:induction false} PollLoopPlain(env: Env, budget: nat, s: Exec, count: nat)
    requires Inv(s)
    ensures PlainlyExtends(s.log, PollLoop(env, budget, s, count).s.log)
    decreases budget - count
  {
    hide Inv, Refilled, Polled;
    if count < budget {
      RefilledLog(env, s);
      RefilledKeeps(env, s);
      var r := Refilled(env, s);
      if r.queue != [] {
        PolledKeeps(env, r);
        PollLoopPlain(env, budget, Polled(env, r), count + 1);
      }
    }
  }

  lemma OpenedShape(env: Env, s: Exec)
    requires Inv(s)
    ensures
      var l := Opened(env, s).log;
      && s.log <= l && |s.log| + 2 < |l|
      && l[|s.log|] == TickBegin && l[|s.log| + 1].Drain? && l[|s.log| + 1].source == Deferred
      && (forall i :: |s.log| + 1 < i < |l| ==> l[i].PopInjection?)
  {
    hide AllAffected, AllPopped, Kept, Calm;
    AllAffectedKeeps(s, env(|s.log|).effects);
    AllPoppedPlain(DeferredDrained(Logged(AllAffected(s, env(|s.log|).effects), TickBegin)));
  }

  lemma ParkShape(env: Env, s: Exec, woken: seq<Wake>)
    requires Inv(s)
    ensures
      var l := ParkedOnce(env, s, woken).log;
      && s.log <= l && |l| == |s.log| + 3 && l[|s.log|] == Park
      && l[|s.log| + 1].Drain? && l[|s.log| + 1].source == ReactorWake
      && l[|s.log| + 2].Drain? && l[|s.log| + 2].source == TaskWake
  {
    hide Fired, ReactorDrained, TaskDrained, Recorded, NoneLost, Consistent, Parked, FireClock;
    FiredKeeps(env, s, woken);
    ReactorDrainedLog(env, Fired(env, s, woken));
    TaskDrainedLog(ReactorDrained(env, Fired(env, s, woken)));
  }

  /** Every tick appends one tick's events, in order. */
  lemma TickShape(env: Env, budget: nat, s: Exec, woken: seq<Wake>)
    requires Inv(s) && 1 <= budget
    ensures OneTick(s.log, Tick(env, budget, s, woken).log, |FirstLoop(env, budget, s).s.log|)
  {
    hide Inv, Opened, PollLoop, ParkedOnce, Parked, FireClock, Fifo;
    TickMarks(env, budget, s, woken);
    var s' := Tick(env, budget, s, woken);
    if Fifo(s.log) != [] {
      QueueIsFifo(s);
      TickServes(env, budget, s, woken, 0);
      PollInside(s'.log, |s.log|, s.queue[0]);
    }
  }

  lemma TickMarks(env: Env, budget: nat, s: Exec, woken: seq<Wake>)
    requires Inv(s)
    ensures Landmarks(s.log, Tick(env, budget, s, woken).log, |FirstLoop(env, budget, s).s.log|)
  {
    hide Inv, Opened, PollLoop, ParkedOnce, Parked, FireClock, Fifo;
    var o, r := Opened(env, s), FirstLoop(env, budget, s);
    OpenedKeeps(env, s);
    OpenedShape(env, s);
    PollLoopKeeps(env, budget, o, 0);
    PollLoopPlain(env, budget, o, 0);
    ParkedKeeps(env, r.s, woken);
    ParkShape(env, r.s, woken);
    var park := ParkedOnce(env, r.s, woken);
    PollLoopPlain(env, budget, park, r.count);
    PollLoopKeeps(env, budget, park, r.count);
  }

  lemma QueueIsFifo(s: Exec)
    requires Inv(s)
    ensures s.queue == Fifo(s.log) && PollsOk(s.log)
  {
  }

  lemma PollInside(l: Log, from: nat, t: nat)
    requires PolledSince(l, from, t) && l != [] && l[|l| - 1] == TickEnd && from < |l| && l[from] == TickBegin
    ensures exists j :: from < j < |l| - 1 && l[j].PollTask?
  {
    var j :| from <= j < |l| && l[j].PollTask? && l[j].task == t;
  }

  /** Every run's log has all nine properties at each tick boundary. */
  lemma {:induction false} EveryRunIsGrammatical(env: Env, budget: nat, fires: seq<seq<Wake>>)
    requires 1 <= budget
    ensures Grammar(Run(env, budget, IDLE, fires).log)
  {
    hide Inv, Tick, Grammar, OneTick, FirstLoop;
    if fires == [] {
      EmptyGrammar();
    } else {
      var m := |fires| - 1;
      EveryRunIsGrammatical(env, budget, fires[..m]);
      var r := Run(env, budget, IDLE, fires[..m]);
      IdleInv();
      RunKeeps(env, budget, IDLE, fires[..m]);
      TickKeeps(env, budget, r, fires[m]);
      TickShape(env, budget, r, fires[m]);
      QueueIsFifo(Tick(env, budget, r, fires[m]));
      GrammarGrows(r.log, Tick(env, budget, r, fires[m]).log, |FirstLoop(env, budget, r).s.log|);
    }
  }

  lemma EmptyGrammar()
    ensures Grammar([])
  {
  }
}
