/** What reaches the channel, read off the environment. */
module Sends {
  import opened WakeModel
  import opened ReactorModel
  import opened ExecLog
  import opened ExecModel
  import opened ExecInvariant
  import opened TickGrammar
  import opened Injection

  // ---- what an event sends ----

  function SendOf(a: Arrival): seq<nat>
  {
    if a.Send? then [a.task] else []
  }

  function SendsOf(arrivals: seq<Arrival>): seq<nat>
  {
    if arrivals == [] then [] else SendOf(arrivals[0]) + SendsOf(arrivals[1..])
  }

  function EffectSend(e: Effect): seq<nat>
  {
    if e.Arrive? then SendOf(e.arrival) else []
  }

  function EffectSends(effects: seq<Effect>): seq<nat>
  {
    if effects == [] then [] else EffectSend(effects[0]) + EffectSends(effects[1..])
  }

  /** The tasks sent at the event logged at `i`, in order. */
  function SentAt(env: Env, l: Log, i: nat): seq<nat>
    requires i < |l|
  {
    var m := env(i);
    match l[i]
    case TickBegin => EffectSends(m.effects)
    case PollTask(_, outcome) => if outcome == Invalid then [] else EffectSends(m.effects)
    case Drain(ReactorWake, _) => SendsOf(m.before)
    case Park => SendsOf(m.before) + SendsOf(m.early) + SendsOf(m.during) + SendsOf(m.late)
    case _ => []
  }

  /** Everything sent over the log. */
  function SentOver(env: Env, l: Log): seq<nat>
  {
    if l == [] then [] else SentOver(env, l[..|l| - 1]) + SentAt(env, l, |l| - 1)
  }

  ghost predicate SentMatches(env: Env, s: Exec)
  {
    s.sent == SentOver(env, s.log)
  }

  // ---- sequences ----

  lemma {:induction false} SendsSnoc(arrivals: seq<Arrival>, a: Arrival)
    ensures SendsOf(arrivals + [a]) == SendsOf(arrivals) + SendOf(a)
  {
    hide SendOf;
    if arrivals == [] {
      assert ([a])[1..] == [];
    } else {
      SendsSnoc(arrivals[1..], a);
      assert (arrivals + [a])[1..] == arrivals[1..] + [a];
    }
  }

  lemma {:induction false} EffectsSnoc(effects: seq<Effect>, e: Effect)
    ensures EffectSends(effects + [e]) == EffectSends(effects) + EffectSend(e)
  {
    hide EffectSend;
    if effects == [] {
      assert ([e])[1..] == [];
    } else {
      EffectsSnoc(effects[1..], e);
      assert (effects + [e])[1..] == effects[1..] + [e];
    }
  }

  /** Arrivals send their tasks, in order, to the channel, and nothing else. */
  lemma {:induction false} ArrivalsSend(s: Exec, arrivals: seq<Arrival>)
    ensures AllArrived(s, arrivals).sent == s.sent + SendsOf(arrivals)
    ensures AllArrived(s, arrivals).channel == s.channel + SendsOf(arrivals)
    ensures AllArrived(s, arrivals).log == s.log
  {
    hide Woken;
    if arrivals != [] {
      var m := |arrivals| - 1;
      ArrivalsSend(s, arrivals[..m]);
      SendsSnoc(arrivals[..m], arrivals[m]);
      assert arrivals == arrivals[..m] + [arrivals[m]];
    }
  }

  lemma OneEffectSends(s: Exec, e: Effect)
    ensures Affected(s, e).sent == s.sent + EffectSend(e) && Affected(s, e).channel == s.channel + EffectSend(e)
    ensures Affected(s, e).log == s.log
  {
    hide Woken, Registered, Deregistered, DeferredCurrent, Interrupted;
  }

  lemma {:induction false} EffectsSend(s: Exec, effects: seq<Effect>)
    ensures AllAffected(s, effects).sent == s.sent + EffectSends(effects)
    ensures AllAffected(s, effects).channel == s.channel + EffectSends(effects)
    ensures AllAffected(s, effects).log == s.log
  {
    hide Affected, EffectSends, EffectSend;
    if effects == [] {
      assert EffectSends([]) == [] by { NoEffectsSend(); }
    }
    if effects != [] {
      var m := |effects| - 1;
      EffectsSend(s, effects[..m]);
      OneEffectSends(AllAffected(s, effects[..m]), effects[m]);
      EffectsSnoc(effects[..m], effects[m]);
      assert effects == effects[..m] + [effects[m]];
    }
  }

  lemma NoEffectsSend()
    ensures EffectSends([]) == []
  {
  }

  lemma SentNext(env: Env, l: Log, e: Event)
    ensures SentOver(env, l + [e]) == SentOver(env, l) + SentAt(env, l + [e], |l|)
  {
    assert (l + [e])[..|l|] == l;
  }

  /** An event that sends nothing: a receive, a drain of task wakes or deferred tasks, or a tick's end. */
  predicate Silent(e: Event)
  {
    e.PopInjection? || e.TickEnd? || (e.Drain? && e.source != ReactorWake)
  }

  lemma SilentNext(env: Env, l: Log, e: Event)
    requires Silent(e)
    ensures SentOver(env, l + [e]) == SentOver(env, l)
  {
    SentNext(env, l, e);
    assert SentAt(env, l + [e], |l|) == [];
  }

  lemma {:induction false} NothingSent(env: Env, l: Log, l': Log)
    requires l <= l' && forall i :: |l| <= i < |l'| ==> Silent(l'[i])
    ensures SentOver(env, l') == SentOver(env, l)
    decreases |l'|
  {
    hide SentOver, Silent;
    if |l| < |l'| {
      var m := |l'| - 1;
      NothingSent(env, l, l'[..m]);
      SilentNext(env, l'[..m], l'[m]);
      assert l' == l'[..m] + [l'[m]];
    } else {
      assert l == l';
    }
  }

  // ---- phases ----

  lemma ReactorDrainedSent(env: Env, s: Exec)
    requires Inv(s)
    ensures
      var r := ReactorDrained(env, s);
      && r.sent == s.sent + SendsOf(env(|s.log|).before)
      && |r.log| == |s.log| + 1 && r.log == s.log + [r.log[|s.log|]]
      && r.log[|s.log|].Drain? && r.log[|s.log|].source == ReactorWake
  {
    hide Kept, AllArrived, Calm, Recorded, SendsOf;
    ArrivalsSend(s, env(|s.log|).before);
    ReactorDrainedLog(env, s);
  }

  lemma ReactorDrainedSends(env: Env, s: Exec)
    requires Inv(s) && SentMatches(env, s)
    ensures SentMatches(env, ReactorDrained(env, s))
  {
    hide Inv, ReactorDrained, SendsOf, SentOver;
    ReactorDrainedSent(env, s);
    SentNext(env, s.log, ReactorDrained(env, s).log[|s.log|]);
  }

  lemma TaskDrainedSends(env: Env, s: Exec)
    requires SentMatches(env, s)
    ensures SentMatches(env, TaskDrained(s))
  {
    hide Kept, CrossDrained;
    TaskDrainedLog(s);
    NothingSent(env, s.log, TaskDrained(s).log);
  }

  lemma AdmittedSends(env: Env, s: Exec)
    requires SentMatches(env, s)
    ensures SentMatches(env, Admitted(s)) && Admitted(s).sent == s.sent
  {
    AdmittedPlain(s);
    NothingSent(env, s.log, Admitted(s).log);
  }

  lemma RefilledSends(env: Env, s: Exec)
    requires Inv(s) && SentMatches(env, s)
    ensures SentMatches(env, Refilled(env, s))
  {
    hide Inv, SentMatches, ReactorDrained, TaskDrained, Admitted;
    if s.queue == [] {
      ReactorDrainedSends(env, s);
      TaskDrainedSends(env, ReactorDrained(env, s));
      AdmittedSends(env, TaskDrained(ReactorDrained(env, s)));
    }
  }

  lemma PolledSent(env: Env, s: Exec)
    requires s.queue != []
    ensures
      var t, p, m := s.queue[0], Polled(env, s), env(|s.log|);
      && p.sent == s.sent + (if t in s.slab then EffectSends(m.effects) else [])
      && p.log == s.log + [PollTask(t, if t !in s.slab then Invalid else if m.ready then Ready else Pending)]
  {
    hide AllAffected, EffectSends;
    var t := s.queue[0];
    var c := s.(queue := s.queue[1..], wakes := Cleared(s.wakes, t), slab := s.slab - {t});
    EffectsSend(c, env(|s.log|).effects);
  }

  lemma PolledSends(env: Env, s: Exec)
    requires s.queue != [] && SentMatches(env, s)
    ensures SentMatches(env, Polled(env, s))
  {
    hide Polled, EffectSends, SentOver;
    PolledSent(env, s);
    var l := Polled(env, s).log;
    SentNext(env, s.log, l[|s.log|]);
  }

  lemma {:induction false} PollLoopSends(env: Env, budget: nat, s: Exec, count: nat)
    requires Inv(s) && SentMatches(env, s)
    ensures SentMatches(env, PollLoop(env, budget, s, count).s)
    decreases budget - count
  {
    hide Inv, Refilled, Polled, SentMatches;
    if count < budget {
      RefilledKeeps(env, s);
      RefilledSends(env, s);
      var r := Refilled(env, s);
      if r.queue != [] {
        PolledKeeps(env, r);
        PolledSends(env, r);
        PollLoopSends(env, budget, Polled(env, r), count + 1);
      }
    }
  }

  lemma OpenedSends(env: Env, s: Exec)
    requires Inv(s) && SentMatches(env, s)
    ensures SentMatches(env, Opened(env, s))
  {
    hide Inv, AllAffected, AllPopped, Kept, SentOver, EffectSends;
    var a := AllAffected(s, env(|s.log|).effects);
    EffectsSend(s, env(|s.log|).effects);
    SentNext(env, s.log, TickBegin);
    var d := DeferredDrained(Logged(a, TickBegin));
    assert SentOver(env, s.log + [TickBegin]) == d.sent;
    AllPoppedPlain(d);
    AllPoppedSent(d);
    assert d.log[|s.log| + 1].Drain? && d.log[|s.log| + 1].source == Deferred;
    NothingSent(env, s.log + [TickBegin], d.log);
    NothingSent(env, d.log, AllPopped(d).log);
  }

  lemma {:induction false} AllPoppedSent(s: Exec)
    ensures AllPopped(s).sent == s.sent
    decreases |s.channel|
  {
    if Accepts(s).Some? {
      AllPoppedSent(Admitted(s));
    }
  }

  lemma SleepingSends(env: Env, s: Exec)
    ensures
      var m := env(|s.log|);
      && AboutToFire(env, s).sent == s.sent + SendsOf(m.before) + SendsOf(m.early) + SendsOf(m.during)
      && AboutToFire(env, s).log == s.log
  {
    hide AllArrived, CrossDrained, Flushed, SendsOf;
    var m := env(|s.log|);
    ArrivalsSend(s, m.before);
    var b := AtReset(env, s);
    ArrivalsSend(b.(wakes := b.wakes.(interrupted := false)), m.early);
    var p := Prepared(env, s);
    ArrivalsSend(p.(timers := Flushed(p.timers)), m.during);
  }

  lemma FiredSends(env: Env, s: Exec, woken: seq<Wake>)
    requires SentMatches(env, s)
    ensures SentMatches(env, Fired(env, s, woken))
  {
    hide AllArrived, AllWoken, AboutToFire, Expired, FireClock, SendsOf, SentOver;
    var m := env(|s.log|);
    SleepingSends(env, s);
    var f := AboutToFire(env, s);
    var x := f.(timers := Expired(f.timers, FireClock(env, s)), wakes := AllWoken(f.wakes, woken));
    ArrivalsSend(x, m.late);
    SentNext(env, s.log, Park);
    assert Fired(env, s, woken).log == s.log + [Park];
  }

  lemma ParkedSends(env: Env, s: Exec, woken: seq<Wake>)
    requires Inv(s) && SentMatches(env, s)
    ensures SentMatches(env, ParkedOnce(env, s, woken))
  {
    hide Inv, SentMatches, Fired, ReactorDrained, TaskDrained, Parked, FireClock;
    FiredKeeps(env, s, woken);
    FiredSends(env, s, woken);
    ReactorDrainedSends(env, Fired(env, s, woken));
    TaskDrainedSends(env, ReactorDrained(env, Fired(env, s, woken)));
  }

  lemma TickSends(env: Env, budget: nat, s: Exec, woken: seq<Wake>)
    requires Inv(s) && SentMatches(env, s)
    ensures SentMatches(env, Tick(env, budget, s, woken))
  {
    hide Inv, Opened, PollLoop, ParkedOnce, Parked, FireClock;
    OpenedKeeps(env, s);
    OpenedSends(env, s);
    PollLoopKeeps(env, budget, Opened(env, s), 0);
    PollLoopSends(env, budget, Opened(env, s), 0);
    var r := FirstLoop(env, budget, s);
    ParkedKeeps(env, r.s, woken);
    ParkedSends(env, r.s, woken);
    var p := ThroughPark(env, budget, s, woken);
    PollLoopSends(env, budget, p, r.count);
    var f := PollLoop(env, budget, p, r.count).s;
    NothingSent(env, f.log, f.log + [TickEnd]);
  }

  /** On every run what was sent is, in order, what the environment sent at the run's events. */
  lemma {:induction false} RunSends(env: Env, budget: nat, fires: seq<seq<Wake>>)
    ensures Run(env, budget, IDLE, fires).sent == SentOver(env, Run(env, budget, IDLE, fires).log)
  {
    hide Inv, Tick;
    if fires != [] {
      var m := |fires| - 1;
      RunSends(env, budget, fires[..m]);
      IdleInv();
      RunKeeps(env, budget, IDLE, fires[..m]);
      TickSends(env, budget, Run(env, budget, IDLE, fires[..m]), fires[m]);
    }
  }

  /**
   From the environment's sends to the deliveries: on every run the delivered ids and the
   channel, put together, are all that was sent, in order, repetitions apart.
   */
  lemma SendsAreDelivered(env: Env, budget: nat, fires: seq<seq<Wake>>)
    ensures
      var s := Run(env, budget, IDLE, fires);
      var sent := SentOver(env, s.log);
      && |s.channel| <= |sent| && s.channel == sent[|sent| - |s.channel|..]
      && Delivered(s.log) == FirstSeen(sent[..|sent| - |s.channel|])
  {
    hide Run, FirstSeen, SentOver;
    RunSends(env, budget, fires);
    DeliveredInSendOrder(env, budget, fires);
  }
}
