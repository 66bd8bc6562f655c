/** Duplicate wakes are suppressed: one notification queues its task once. */
module Suppression {
  import opened WakeModel
  import opened ReactorModel
  import opened ExecModel

  /** What may happen to the wakes between two polls of a task. */
  datatype WakeStep =
    | Call(waker: Waker, onExecutor: bool)
    | DeferMe(task: nat)
    | DrainForeign
    | Clear(task: nat)

  function Stepped(w: Wakes, e: WakeStep): Wakes
  {
    match e
    case Call(k, onExecutor) => Woken(w, k, onExecutor)
    case DeferMe(t) => DeferredCurrent(w, t)
    case DrainForeign => CrossDrained(w)
    case Clear(t) => Cleared(w, t)
  }

  function AllStepped(w: Wakes, steps: seq<WakeStep>): Wakes
  {
    if steps == [] then w else Stepped(AllStepped(w, steps[..|steps| - 1]), steps[|steps| - 1])
  }

  /** How often `t` stands in the two ready queues. */
  function Queued(w: Wakes, t: nat): nat
  {
    multiset(w.reactorReady)[t] + multiset(w.taskReady)[t]
  }

  /** From `w` to `w'` the ready queues gained `t` exactly if its bit was set in between, and then once. */
  ghost predicate QueuedOnce(w: Wakes, w': Wakes, t: nat)
  {
    && Queued(w', t) == Queued(w, t) + (if t !in w.notified && t in w'.notified then 1 else 0)
    && (t in w.notified ==> t in w'.notified)
  }

  lemma QueuedThrough(a: Wakes, b: Wakes, c: Wakes, t: nat)
    requires QueuedOnce(a, b, t) && QueuedOnce(b, c, t)
    ensures QueuedOnce(a, c, t)
  {
  }

  lemma CountSnoc(q: seq<nat>, x: nat, t: nat)
    ensures multiset(q + [x])[t] == multiset(q)[t] + if x == t then 1 else 0
  {
  }

  lemma PushQueuesOnce(w: Wakes, x: nat, t: nat)
    requires t != BLOCK_ON
    ensures QueuedOnce(w, PushedTask(w, x), t) && (x == t ==> t in PushedTask(w, x).notified)
    ensures QueuedOnce(w, PushedReactor(w, x), t) && (x == t ==> t in PushedReactor(w, x).notified)
  {
    CountSnoc(w.taskReady, x, t);
    CountSnoc(w.reactorReady, x, t);
  }

  lemma WokenQueuesOnce(w: Wakes, k: Waker, onExecutor: bool, t: nat)
    requires t != BLOCK_ON
    ensures QueuedOnce(w, Woken(w, k, onExecutor), t)
    ensures k.task == t && onExecutor && !k.defer ==> t in Woken(w, k, onExecutor).notified
  {
    hide PushedTask, PushedReactor;
    PushQueuesOnce(w, k.task, t);
  }

  lemma {:induction false} PushedAllQueuesOnce(w: Wakes, ids: seq<nat>, t: nat)
    requires t != BLOCK_ON
    ensures QueuedOnce(w, PushedAll(w, ids), t)
    ensures t in ids ==> t in PushedAll(w, ids).notified
  {
    hide QueuedOnce, PushedTask;
    if ids == [] {
      QueuedSelf(w, t);
    } else {
      var m := |ids| - 1;
      var b := PushedAll(w, ids[..m]);
      PushedAllQueuesOnce(w, ids[..m], t);
      PushQueuesOnce(b, ids[m], t);
      QueuedThrough(w, b, PushedAll(w, ids), t);
      if t in b.notified { StaysNotified(b, PushedAll(w, ids), t); }
      assert ids == ids[..m] + [ids[m]];
    }
  }

  lemma QueuedSelf(w: Wakes, t: nat)
    ensures QueuedOnce(w, w, t)
  {
  }

  lemma StaysNotified(w: Wakes, w': Wakes, t: nat)
    requires QueuedOnce(w, w', t) && t in w.notified
    ensures t in w'.notified
  {
  }

  lemma StepQueuesOnce(w: Wakes, e: WakeStep, t: nat)
    requires t != BLOCK_ON && e != Clear(t)
    ensures QueuedOnce(w, Stepped(w, e), t)
    ensures e.Call? && e.waker.task == t && e.onExecutor && !e.waker.defer ==> t in Stepped(w, e).notified
    ensures e == DrainForeign && t in w.cross ==> t in Stepped(w, e).notified
  {
    hide PushedAll, Woken;
    match e
    case Call(k, onExecutor) => WokenQueuesOnce(w, k, onExecutor, t);
    case DeferMe(_) =>
    case DrainForeign => PushedAllQueuesOnce(w, w.cross, t);
    case Clear(_) =>
  }

  /** A step that certainly notifies `t`: a wake on the executor's thread that does not defer it. */
  predicate Notifies(e: WakeStep, t: nat)
  {
    e.Call? && e.waker.task == t && e.onExecutor && !e.waker.defer
  }

  /**
   Over any wakes and drains of foreign wakes between two polls of a spawned task `t`, and
   any polls of other tasks meanwhile, the ready queues gain `t` once at most, and not at
   all if its bit was set to begin with. If one of the wakes notifies it they gain it
   exactly once unless its bit was set to begin with.
   */
  lemma {:induction false} OneNotificationQueuesOnce(w: Wakes, steps: seq<WakeStep>, t: nat)
    requires t != BLOCK_ON && Clear(t) !in steps
    ensures
      var w' := AllStepped(w, steps);
      && Queued(w, t) <= Queued(w', t) <= Queued(w, t) + 1
      && (t in w.notified ==> Queued(w', t) == Queued(w, t))
      && (t !in w.notified ==> (Queued(w', t) == Queued(w, t) + 1 <==> t in w'.notified))
    ensures QueuedOnce(w, AllStepped(w, steps), t)
    ensures (exists j :: 0 <= j < |steps| && Notifies(steps[j], t)) ==> t in AllStepped(w, steps).notified
  {
    hide Stepped, Notifies;
    if steps != [] {
      var m := |steps| - 1;
      assert steps[m] in steps;
      OneNotificationQueuesOnce(w, steps[..m], t);
      var b, w' := AllStepped(w, steps[..m]), AllStepped(w, steps);
      StepQueuesOnce(b, steps[m], t);
      QueuedThrough(w, b, w', t);
      if j: nat :| j < |steps| && Notifies(steps[j], t) {
        if j < m {
          assert Notifies(steps[..m][j], t);
        } else {
          NotifierCalls(steps[m], t);
        }
      }
    }
  }

  lemma NotifierCalls(e: WakeStep, t: nat)
    requires Notifies(e, t)
    ensures e.Call? && e.waker.task == t && e.onExecutor && !e.waker.defer
  {
  }

  // ---- the main future ----

  /** A wake that asks for a poll: foreign, or not deferring. */
  predicate Asks(e: WakeStep, t: nat)
  {
    e.Call? && e.waker.task == t && (e.onExecutor ==> !e.waker.defer)
  }

  function AsksIn(steps: seq<WakeStep>, t: nat): nat
  {
    if steps == [] then 0 else (if Asks(steps[0], t) then 1 else 0) + AsksIn(steps[1..], t)
  }

  lemma {:induction false} AsksSnoc(steps: seq<WakeStep>, e: WakeStep, t: nat)
    ensures AsksIn(steps + [e], t) == AsksIn(steps, t) + if Asks(e, t) then 1 else 0
  {
    if steps != [] {
      AsksSnoc(steps[1..], e, t);
      assert (steps + [e])[1..] == steps[1..] + [e];
    } else {
      assert (steps + [e])[1..] == [];
    }
  }

  /** Wakes that wait for a poll, foreign ones included. */
  function Held(w: Wakes, t: nat): nat
  {
    Queued(w, t) + multiset(w.cross)[t]
  }

  lemma {:induction false} PushedAllHolds(w: Wakes, ids: seq<nat>)
    ensures Queued(PushedAll(w, ids), BLOCK_ON) == Queued(w, BLOCK_ON) + multiset(ids)[BLOCK_ON]
    ensures PushedAll(w, ids).cross == w.cross
  {
    if ids != [] {
      var m := |ids| - 1;
      PushedAllHolds(w, ids[..m]);
      assert ids == ids[..m] + [ids[m]];
    }
  }

  /** No wake of the main future is suppressed or lost: each one is queued. */
  lemma {:induction false} MainFutureIsNeverSuppressed(w: Wakes, steps: seq<WakeStep>)
    ensures Held(AllStepped(w, steps), BLOCK_ON) == Held(w, BLOCK_ON) + AsksIn(steps, BLOCK_ON)
  {
    if steps != [] {
      var m := |steps| - 1;
      MainFutureIsNeverSuppressed(w, steps[..m]);
      var b := AllStepped(w, steps[..m]);
      AsksSnoc(steps[..m], steps[m], BLOCK_ON);
      assert steps == steps[..m] + [steps[m]];
      StepHolds(b, steps[m]);
    }
  }

  lemma StepHolds(w: Wakes, e: WakeStep)
    ensures Held(Stepped(w, e), BLOCK_ON) == Held(w, BLOCK_ON) + if Asks(e, BLOCK_ON) then 1 else 0
  {
    hide PushedAll, Woken;
    match e
    case Call(k, onExecutor) => WokenHolds(w, k, onExecutor);
    case DrainForeign => PushedAllHolds(w, w.cross);
    case _ =>
  }

  lemma WokenHolds(w: Wakes, k: Waker, onExecutor: bool)
    ensures
      Held(Woken(w, k, onExecutor), BLOCK_ON)
      == Held(w, BLOCK_ON) + if k.task == BLOCK_ON && (onExecutor ==> !k.defer) then 1 else 0
  {
    hide PushedTask, PushedReactor, PushedCross, Held;
    PushHolds(w, k.task);
    CrossHolds(w, k.task);
    assert Held(PushedDeferred(w, k.task), BLOCK_ON) == Held(w, BLOCK_ON) by { DeferHolds(w, k.task); }
  }

  lemma PushHolds(w: Wakes, x: nat)
    ensures Held(PushedTask(w, x), BLOCK_ON) == Held(w, BLOCK_ON) + if x == BLOCK_ON then 1 else 0
    ensures Held(PushedReactor(w, x), BLOCK_ON) == Held(w, BLOCK_ON) + if x == BLOCK_ON then 1 else 0
  {
    CountSnoc(w.taskReady, x, BLOCK_ON);
    CountSnoc(w.reactorReady, x, BLOCK_ON);
  }

  lemma CrossHolds(w: Wakes, x: nat)
    ensures Held(PushedCross(w, x), BLOCK_ON) == Held(w, BLOCK_ON) + if x == BLOCK_ON then 1 else 0
  {
    CountSnoc(w.cross, x, BLOCK_ON);
  }

  lemma DeferHolds(w: Wakes, x: nat)
    ensures Held(PushedDeferred(w, x), BLOCK_ON) == Held(w, BLOCK_ON)
  {
  }

  // ---- in the executor ----

  /** Whatever a future does while it is polled, no spawned task's entries in the ready queues grow by more than one. */
  lemma {:induction false} PollQueuesOnce(s: Exec, effects: seq<Effect>, t: nat)
    requires t != BLOCK_ON
    ensures QueuedOnce(s.wakes, AllAffected(s, effects).wakes, t)
  {
    hide Affected, QueuedOnce;
    if effects == [] {
      QueuedSelf(s.wakes, t);
    } else {
      var m := |effects| - 1;
      var b := AllAffected(s, effects[..m]);
      PollQueuesOnce(s, effects[..m], t);
      EffectQueuesOnce(b, effects[m], t);
      QueuedThrough(s.wakes, b.wakes, AllAffected(s, effects).wakes, t);
    }
  }

  lemma EffectQueuesOnce(s: Exec, e: Effect, t: nat)
    requires t != BLOCK_ON
    ensures QueuedOnce(s.wakes, Affected(s, e).wakes, t)
  {
    hide Woken, Registered, Deregistered;
    if e.Arrive? && e.arrival.WakeBy? {
      WokenQueuesOnce(s.wakes, e.arrival.waker, e.arrival.onExecutor, t);
    }
  }

  /** Effect `e` notifies `t`: a wake on the executor's thread that does not defer it. */
  predicate EffectNotifies(e: Effect, t: nat)
  {
    e.Arrive? && e.arrival.WakeBy? && e.arrival.onExecutor && e.arrival.waker.task == t && !e.arrival.waker.defer
  }

  lemma OneEffectNotifies(s: Exec, e: Effect, t: nat)
    requires t != BLOCK_ON
    ensures t in Affected(s, e).wakes.notified <==> t in s.wakes.notified || EffectNotifies(e, t)
  {
    hide Registered, Deregistered;
  }

  lemma {:induction false} EffectsNotify(s: Exec, effects: seq<Effect>, t: nat)
    requires t != BLOCK_ON
    ensures
      t in AllAffected(s, effects).wakes.notified
      <==> t in s.wakes.notified || exists j :: 0 <= j < |effects| && EffectNotifies(effects[j], t)
  {
    hide Affected, EffectNotifies;
    if effects != [] {
      var m := |effects| - 1;
      EffectsNotify(s, effects[..m], t);
      OneEffectNotifies(AllAffected(s, effects[..m]), effects[m], t);
      assert effects == effects[..m] + [effects[m]];
      assert forall j :: 0 <= j < m ==> effects[..m][j] == effects[j];
    }
  }

  /**
   A poll clears its task's bit before its future runs. So after it a spawned task is
   notified exactly if an effect of the future notified it, or it was before and is not the
   task polled; and it entered the ready queues once if that set its bit, else not at all.
   */
  lemma PollNotifiesExactly(env: Env, s: Exec, t: nat)
    requires s.queue != [] && t != BLOCK_ON
    ensures
      var head, w, w', effects := s.queue[0], s.wakes, Polled(env, s).wakes, env(|s.log|).effects;
      var was := t in w.notified && t != head;
      var now := head in s.slab && exists j :: 0 <= j < |effects| && EffectNotifies(effects[j], t);
      && (t in w'.notified <==> was || now)
      && Queued(w', t) == Queued(w, t) + if !was && now then 1 else 0
  {
    hide AllAffected, EffectNotifies;
    var head := s.queue[0];
    var c := s.(queue := s.queue[1..], wakes := Cleared(s.wakes, head));
    assert Queued(c.wakes, t) == Queued(s.wakes, t);
    if head in s.slab {
      var d := c.(slab := s.slab - {head});
      EffectsNotify(d, env(|s.log|).effects, t);
      PollQueuesOnce(d, env(|s.log|).effects, t);
    }
  }
}
