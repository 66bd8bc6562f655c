/** From the injection channel to the first poll. */
module SpawnToPoll {
  import opened Seqs
  import opened ReactorModel
  import opened ExecLog
  import opened ExecModel
  import opened ExecInvariant
  import opened BoundedWaiting
  import opened Injection
  import opened Oversleep

  /** The task at index `p` of the queue that a tick opens with is polled within `p / budget + 1` ticks. */
  lemma PolledOnceOpened(env: Env, budget: nat, s: Exec, fires: seq<seq<Wake>>, p: nat)
    requires Inv(s) && 1 <= budget && p < |Opened(env, s).queue| && |fires| > p / budget
    ensures PolledSince(Run(env, budget, s, fires).log, |s.log|, Opened(env, s).queue[p])
  {
    hide Inv, Opened, PollLoop, ParkedOnce, Parked, FireClock;
    var o, r, t := Opened(env, s), FirstLoop(env, budget, s), Opened(env, s).queue[p];
    OpenedKeeps(env, s);
    LoopServes(env, budget, o, 0, p);
    PollLoopKeeps(env, budget, o, 0);
    ParkedKeeps(env, r.s, fires[0]);
    TickKeeps(env, budget, s, fires[0]);
    var s1 := Tick(env, budget, s, fires[0]);
    AfterFirstTick(env, budget, s, fires);
    var l := Run(env, budget, s, fires).log;
    if p < budget {
      PolledLater(r.s.log, l, |o.log|, |s.log|, t);
    } else {
      LoopSpent(env, budget, ThroughPark(env, budget, s, fires[0]), r.count);
      BudgetsCover(p, budget, |fires|);
      assert |fires[1..]| * budget == |fires| * budget - budget;
      PolledWithinBudgets(env, budget, s1, fires[1..], p - budget);
      PolledLater(l, l, |s1.log|, |s.log|, t);
    }
  }

  /** The queue of an opening tick once the deferred tasks are in it. */
  function Waking(env: Env, s: Exec): Exec
  {
    DeferredDrained(Logged(AllAffected(s, env(|s.log|).effects), TickBegin))
  }

  /**
   A spawned task is polled: the one at position `c` of the channel when a tick begins, in
   a run in which no id was sent twice, enters the queue behind the tasks already in line
   and before anything else, and is polled within its index / budget + 1 ticks.
   */
  lemma SpawnedTaskPolled(env: Env, budget: nat, s: Exec, fires: seq<seq<Wake>>, c: nat)
    requires Inv(s) && InOrder(s) && 1 <= budget && c < |s.channel| && Distinct(Waking(env, s).sent)
    requires |fires| > (|Waking(env, s).queue| + c) / budget
    ensures
      && |Waking(env, s).queue| + c < |Opened(env, s).queue|
      && Opened(env, s).queue[|Waking(env, s).queue| + c] == s.channel[c]
      && s.channel[c] in Injected(Opened(env, s).log)
      && PolledSince(Run(env, budget, s, fires).log, |s.log|, s.channel[c])
  {
    hide Inv, InOrder, Waking, Run, Opened, Injected, PolledSince;
    OpenedInLine(env, s, c);
    PolledOnceOpened(env, budget, s, fires, |Waking(env, s).queue| + c);
  }

  lemma OpenedInLine(env: Env, s: Exec, c: nat)
    requires Inv(s) && InOrder(s) && c < |s.channel| && Distinct(Waking(env, s).sent)
    ensures
      && |Waking(env, s).queue| + c < |Opened(env, s).queue|
      && Opened(env, s).queue[|Waking(env, s).queue| + c] == s.channel[c]
      && s.channel[c] in Injected(Opened(env, s).log)
  {
    hide Inv, InOrder, Waking, AllPopped, FreshLen, AllNew, Opened, Injected, AllAffected;
    var d := Waking(env, s);
    WakingKeeps(env, s);
    ChannelIsNew(d);
    AllPoppedExact(d);
    NewIffFresh(d.channel, d.ledger, |d.channel|);
    assert d.channel[..|d.channel|] == d.channel;
    OpenedKeeps(env, s);
    LedgerIsInjected(Opened(env, s));
    assert s.channel[c] in Members(d.channel) by { assert d.channel[c] == s.channel[c]; }
  }

  lemma WakingKeeps(env: Env, s: Exec)
    requires Inv(s) && InOrder(s)
    ensures Inv(Waking(env, s)) && InOrder(Waking(env, s)) && s.channel <= Waking(env, s).channel
    ensures Opened(env, s) == AllPopped(Waking(env, s))
  {
    hide Calm, InOrder, AllAffected, Kept, AllPopped, Recorded;
    var a := AllAffected(s, env(|s.log|).effects);
    AffectedInOrder(s, env(|s.log|).effects);
    AllAffectedKeeps(s, env(|s.log|).effects);
    MarkInOrder(a, TickBegin);
    RecordMark(s.queue, s.slab, s.ledger, s.log, TickBegin);
    LoggedCalm(a, TickBegin);
    var b := Logged(a, TickBegin);
    DrainInOrder(b, b.wakes.(deferred := []), Deferred, b.wakes.deferred);
    DeferredDrainedKeeps(b);
  }
}
