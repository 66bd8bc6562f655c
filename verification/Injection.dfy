/** From the injection channel into the executor, and from there to completion. */
module Injection {
  import opened Options
  import opened Seqs
  import opened WakeModel
  import opened ReactorModel
  import opened ExecLog
  import opened ExecModel
  import opened ExecInvariant

  // ---- one call of pop_injection ----

  /** How many leading ids of the channel are new: not in the ledger, and not repeated. */
  function FreshLen(channel: seq<nat>, ledger: set<nat>): (k: nat)
    ensures k <= |channel|
  {
    if channel == [] || channel[0] in ledger then 0 else 1 + FreshLen(channel[1..], ledger + {channel[0]})
  }

  /** The ids of `s` are new to `ledger` and to each other. */
  ghost predicate AllNew(s: seq<nat>, ledger: set<nat>)
  {
    Distinct(s) && forall t :: t in s ==> t !in ledger
  }

  lemma {:induction false} FreshLenExact(channel: seq<nat>, ledger: set<nat>)
    ensures
      var k := FreshLen(channel, ledger);
      && AllNew(channel[..k], ledger)
      && (k < |channel| ==> channel[k] in ledger || channel[k] in channel[..k])
  {
    if channel != [] && channel[0] !in ledger {
      FreshLenExact(channel[1..], ledger + {channel[0]});
      var j := FreshLen(channel[1..], ledger + {channel[0]});
      assert channel[..j + 1] == [channel[0]] + channel[1..][..j];
      if j < |channel[1..]| { assert channel[j + 1] == channel[1..][j]; }
    }
  }

  /** A prefix of the channel is all new exactly when it is no longer than the fresh one. */
  lemma NewIffFresh(channel: seq<nat>, ledger: set<nat>, n: nat)
    requires n <= |channel|
    ensures AllNew(channel[..n], ledger) <==> n <= FreshLen(channel, ledger)
  {
    FreshLenExact(channel, ledger);
    var k := FreshLen(channel, ledger);
    if n <= k {
      assert channel[..n] == channel[..k][..n];
    } else {
      assert channel[..n][k] == channel[k];
      if channel[k] in channel[..k] {
        var i :| 0 <= i < k && channel[..k][i] == channel[k];
        assert channel[..n][i] == channel[..n][k];
      }
    }
  }

  lemma PrefixCons(s: seq<nat>, j: nat)
    requires s != [] && j <= |s| - 1
    ensures s[..j + 1] == [s[0]] + s[1..][..j]
    ensures Members(s[..j + 1]) == {s[0]} + Members(s[1..][..j])
    ensures j < |s| - 1 ==> s[1..][j + 1..] == s[j + 2..]
  {
    assert s[..j + 1] == [s[0]] + s[1..][..j];
  }

  /**
   One call admits the fresh ids in channel order, and takes one more id off the channel
   if that one stopped it.
   */
  lemma {:induction false} AllPoppedExact(s: Exec)
    ensures
      var k, s' := FreshLen(s.channel, s.ledger), AllPopped(s);
      && s'.queue == s.queue + s.channel[..k]
      && s'.slab == s.slab + Members(s.channel[..k]) && s'.ledger == s.ledger + Members(s.channel[..k])
      && s'.channel == (if k < |s.channel| then s.channel[k + 1..] else [])
      && |s'.log| == |s.log| + k + 1
    decreases |s.channel|
  {
    hide Members;
    if Accepts(s).Some? {
      AllPoppedExact(Admitted(s));
      PrefixCons(s.channel, FreshLen(s.channel[1..], s.ledger + {s.channel[0]}));
    } else {
      NoMembers();
    }
  }

  lemma NoMembers()
    ensures Members([]) == {}
  {
  }

  /**
   One call empties the channel exactly when no duplicate stands before its last id, and
   delivers all of it, in order, exactly when every id is new.
   */
  lemma PopEmptiesExactly(s: Exec)
    ensures AllPopped(s).channel == [] <==> s.channel == [] || AllNew(s.channel[..|s.channel| - 1], s.ledger)
    ensures AllPopped(s).queue == s.queue + s.channel <==> AllNew(s.channel, s.ledger)
  {
    hide AllPopped, FreshLen, AllNew, Members;
    AllPoppedExact(s);
    var k, n := FreshLen(s.channel, s.ledger), |s.channel|;
    assert s.channel[..n] == s.channel;
    NewIffFresh(s.channel, s.ledger, n);
    if n > 0 { NewIffFresh(s.channel, s.ledger, n - 1); }
    if k < n { assert |s.queue + s.channel[..k]| < |s.queue + s.channel|; }
  }

  /**
   An id seen before, at position `c` of the channel, stops the call there: it is dropped,
   and the tasks behind it stay in the channel. Such an id comes up when the spawn counter
   has gone round.
   */
  lemma DuplicateStopsEarly(s: Exec, c: nat)
    requires c < |s.channel| && AllNew(s.channel[..c], s.ledger) && s.channel[c] in s.ledger
    ensures AllPopped(s).queue == s.queue + s.channel[..c] && AllPopped(s).channel == s.channel[c + 1..]
  {
    AllPoppedExact(s);
    NewIffFresh(s.channel, s.ledger, c);
    NewIffFresh(s.channel, s.ledger, c + 1);
    assert s.channel[..c + 1][c] == s.channel[c];
  }

  // ---- every run ----

  /** `s` without the elements that occurred before. */
  function FirstSeen(s: seq<nat>): seq<nat>
  {
    if s == [] then []
    else
      var m := |s| - 1;
      FirstSeen(s[..m]) + if s[m] in s[..m] then [] else [s[m]]
  }

  lemma {:induction false} FirstSeenMembers(s: seq<nat>)
    ensures forall t :: t in FirstSeen(s) <==> t in s
  {
    if s != [] {
      var m := |s| - 1;
      FirstSeenMembers(s[..m]);
      assert s == s[..m] + [s[m]];
    }
  }

  lemma {:induction false} FirstSeenDistinct(s: seq<nat>)
    requires Distinct(s)
    ensures FirstSeen(s) == s
  {
    if s != [] {
      var m := |s| - 1;
      FirstSeenDistinct(s[..m]);
      assert s == s[..m] + [s[m]];
    }
  }

  /**
   The channel holds the end of what was sent; what was delivered is the beginning,
   without repetitions.
   */
  ghost predicate Delivering(channel: seq<nat>, sent: seq<nat>, l: Log)
  {
    && |channel| <= |sent|
    && channel == sent[|sent| - |channel|..]
    && Delivered(l) == FirstSeen(sent[..|sent| - |channel|])
  }

  ghost predicate InOrder(s: Exec)
  {
    Delivering(s.channel, s.sent, s.log)
  }

  lemma SendDelivers(channel: seq<nat>, sent: seq<nat>, l: Log, t: nat)
    requires Delivering(channel, sent, l)
    ensures Delivering(channel + [t], sent + [t], l)
  {
    var n := |sent| - |channel|;
    assert (sent + [t])[..n] == sent[..n];
  }

  lemma OtherDelivers(channel: seq<nat>, sent: seq<nat>, l: Log, e: Event)
    requires Delivering(channel, sent, l) && (e.PopInjection? ==> e.popped == None)
    ensures Delivering(channel, sent, l + [e])
  {
    Snoc(l, e);
  }

  lemma PopDelivers(channel: seq<nat>, sent: seq<nat>, l: Log, ledger: set<nat>)
    requires Delivering(channel, sent, l) && channel != [] && ledger == Injected(l)
    ensures Delivering(channel[1..], sent, l + [PopInjection(if channel[0] in ledger then None else Some(channel[0]))])
  {
    var n := |sent| - |channel|;
    Snoc(l, PopInjection(if channel[0] in ledger then None else Some(channel[0])));
    assert sent[..n + 1][..n] == sent[..n] && sent[n] == channel[0];
    FirstSeenMembers(sent[..n]);
    assert channel[0] in ledger <==> channel[0] in sent[..n];
    assert channel[1..] == sent[n + 1..];
  }

  lemma {:induction false} ArrivedInOrder(s: Exec, arrivals: seq<Arrival>)
    requires InOrder(s)
    ensures InOrder(AllArrived(s, arrivals)) && AllArrived(s, arrivals).log == s.log
  {
    hide Delivering;
    if arrivals != [] {
      var m := |arrivals| - 1;
      var b := AllArrived(s, arrivals[..m]);
      ArrivedInOrder(s, arrivals[..m]);
      if arrivals[m].Send? { SendDelivers(b.channel, b.sent, b.log, arrivals[m].task); }
    }
  }

  lemma {:induction false} AffectedInOrder(s: Exec, effects: seq<Effect>)
    requires InOrder(s)
    ensures InOrder(AllAffected(s, effects)) && AllAffected(s, effects).log == s.log
  {
    hide Delivering, Registered, Deregistered;
    if effects != [] {
      var m := |effects| - 1;
      var b := AllAffected(s, effects[..m]);
      AffectedInOrder(s, effects[..m]);
      if effects[m].Arrive? && effects[m].arrival.Send? {
        SendDelivers(b.channel, b.sent, b.log, effects[m].arrival.task);
      }
    }
  }

  lemma DrainInOrder(s: Exec, w: Wakes, source: Source, ids: seq<nat>)
    requires InOrder(s)
    ensures InOrder(Enqueued(s.(wakes := w), source, ids))
  {
    hide Delivering, Kept;
    OtherDelivers(s.channel, s.sent, s.log, Drain(source, Kept(ids, s.ledger)));
  }

  lemma MarkInOrder(s: Exec, e: Event)
    requires InOrder(s) && !e.PopInjection?
    ensures InOrder(Logged(s, e))
  {
    hide Delivering;
    OtherDelivers(s.channel, s.sent, s.log, e);
  }

  lemma AdmittedInOrder(s: Exec)
    requires InOrder(s) && s.ledger == Injected(s.log)
    ensures InOrder(Admitted(s))
  {
    hide Delivering;
    if s.channel != [] {
      PopDelivers(s.channel, s.sent, s.log, s.ledger);
    } else {
      OtherDelivers(s.channel, s.sent, s.log, PopInjection(None));
    }
  }

  lemma LedgerIsInjected(s: Exec)
    requires Inv(s)
    ensures s.ledger == Injected(s.log) && Distinct(Delivered(s.log))
  {
  }

  lemma {:induction false} AllPoppedInOrder(s: Exec)
    requires Inv(s) && InOrder(s)
    ensures InOrder(AllPopped(s))
    decreases |s.channel|
  {
    hide Inv, InOrder;
    LedgerIsInjected(s);
    AdmittedInOrder(s);
    AdmittedKeeps(s);
    if Accepts(s).Some? {
      AllPoppedInOrder(Admitted(s));
    }
  }

  lemma ReactorInOrder(env: Env, s: Exec)
    requires InOrder(s)
    ensures InOrder(ReactorDrained(env, s))
  {
    hide InOrder, AllArrived, Kept;
    ArrivedInOrder(s, env(|s.log|).before);
    var a := AllArrived(s, env(|s.log|).before);
    DrainInOrder(a, a.wakes.(reactorReady := []), ReactorWake, a.wakes.reactorReady);
  }

  lemma RefilledInOrder(env: Env, s: Exec)
    requires Inv(s) && InOrder(s)
    ensures InOrder(Refilled(env, s))
  {
    hide Inv, InOrder, Kept, CrossDrained, ReactorDrained;
    if s.queue == [] {
      var r := ReactorDrained(env, s);
      ReactorInOrder(env, s);
      ReactorDrainedKeeps(env, s);
      var w := CrossDrained(r.wakes);
      DrainInOrder(r, w.(taskReady := []), TaskWake, w.taskReady);
      TaskDrainedKeeps(r);
      if TaskDrained(r).queue == [] {
        LedgerIsInjected(TaskDrained(r));
        AdmittedInOrder(TaskDrained(r));
      }
    }
  }

  lemma PolledInOrder(env: Env, s: Exec)
    requires InOrder(s) && s.queue != []
    ensures InOrder(Polled(env, s))
  {
    hide Delivering, AllAffected;
    var t, m := s.queue[0], env(|s.log|);
    var c := s.(queue := s.queue[1..], wakes := Cleared(s.wakes, t), slab := s.slab - {t});
    AffectedInOrder(c, m.effects);
    var o := if t in s.slab then if m.ready then Ready else Pending else Invalid;
    var a := if t in s.slab then AllAffected(c, m.effects) else c;
    MarkInOrder(a, PollTask(t, o));
  }

  lemma {:induction false} PollLoopInOrder(env: Env, budget: nat, s: Exec, count: nat)
    requires Inv(s) && InOrder(s)
    ensures InOrder(PollLoop(env, budget, s, count).s)
    decreases budget - count
  {
    hide Inv, InOrder, Refilled, Polled;
    if count < budget {
      RefilledKeeps(env, s);
      RefilledInOrder(env, s);
      var r := Refilled(env, s);
      if r.queue != [] {
        PolledKeeps(env, r);
        PolledInOrder(env, r);
        PollLoopInOrder(env, budget, Polled(env, r), count + 1);
      }
    }
  }

  lemma FiredInOrder(env: Env, s: Exec, woken: seq<Wake>)
    requires InOrder(s)
    ensures InOrder(Fired(env, s, woken))
  {
    hide Delivering, AllArrived, AllWoken, CrossDrained, Flushed, Expired;
    var m := env(|s.log|);
    ArrivedInOrder(s, m.before);
    var b := AtReset(env, s);
    ArrivedInOrder(b.(wakes := b.wakes.(interrupted := false)), m.early);
    var p := Prepared(env, s);
    ArrivedInOrder(p.(timers := Flushed(p.timers)), m.during);
    var f := AboutToFire(env, s);
    var x := f.(timers := Expired(f.timers, FireClock(env, s)), wakes := AllWoken(f.wakes, woken));
    ArrivedInOrder(x, m.late);
    MarkInOrder(AllArrived(x, m.late), Park);
  }

  lemma ParkedInOrder(env: Env, s: Exec, woken: seq<Wake>)
    requires Inv(s) && InOrder(s)
    ensures InOrder(ParkedOnce(env, s, woken))
  {
    hide Inv, InOrder, Fired, Kept, CrossDrained, Parked, FireClock, ReactorDrained;
    var f := Fired(env, s, woken);
    FiredInOrder(env, s, woken);
    FiredKeeps(env, s, woken);
    ReactorInOrder(env, f);
    var r := ReactorDrained(env, f);
    var w := CrossDrained(r.wakes);
    DrainInOrder(r, w.(taskReady := []), TaskWake, w.taskReady);
  }

  lemma OpenedInOrder(env: Env, s: Exec)
    requires Inv(s) && InOrder(s)
    ensures InOrder(Opened(env, s))
  {
    hide Calm, InOrder, AllAffected, Kept, AllPopped, Recorded;
    AffectedInOrder(s, env(|s.log|).effects);
    AllAffectedKeeps(s, env(|s.log|).effects);
    var a := AllAffected(s, env(|s.log|).effects);
    MarkInOrder(a, TickBegin);
    RecordMark(s.queue, s.slab, s.ledger, s.log, TickBegin);
    LoggedCalm(a, TickBegin);
    var b := Logged(a, TickBegin);
    DrainInOrder(b, b.wakes.(deferred := []), Deferred, b.wakes.deferred);
    DeferredDrainedKeeps(b);
    AllPoppedInOrder(DeferredDrained(b));
  }

  lemma TickInOrder(env: Env, budget: nat, s: Exec, woken: seq<Wake>)
    requires Inv(s) && InOrder(s)
    ensures InOrder(Tick(env, budget, s, woken))
  {
    hide Inv, InOrder, Opened, PollLoop, ParkedOnce, Parked, FireClock;
    OpenedKeeps(env, s);
    OpenedInOrder(env, s);
    PollLoopKeeps(env, budget, Opened(env, s), 0);
    PollLoopInOrder(env, budget, Opened(env, s), 0);
    var r := FirstLoop(env, budget, s);
    ParkedKeeps(env, r.s, woken);
    ParkedInOrder(env, r.s, woken);
    var park := ParkedOnce(env, r.s, woken);
    PollLoopInOrder(env, budget, park, r.count);
    MarkInOrder(PollLoop(env, budget, park, r.count).s, TickEnd);
  }

  lemma {:induction false} RunInOrder(env: Env, budget: nat, fires: seq<seq<Wake>>)
    ensures Inv(Run(env, budget, IDLE, fires)) && InOrder(Run(env, budget, IDLE, fires))
  {
    hide Inv, Tick, Delivering;
    if fires != [] {
      var m := |fires| - 1;
      RunInOrder(env, budget, fires[..m]);
      TickKeeps(env, budget, Run(env, budget, IDLE, fires[..m]), fires[m]);
      TickInOrder(env, budget, Run(env, budget, IDLE, fires[..m]), fires[m]);
    } else {
      IdleInv();
      IdleInOrder();
    }
  }

  lemma IdleInOrder()
    ensures InOrder(IDLE)
  {
  }

  /**
   On every run no id is delivered twice, the delivered ids are those taken off the channel
   without repetitions, and when no id was sent twice they are a prefix of what was sent.
   */
  lemma DeliveredInSendOrder(env: Env, budget: nat, fires: seq<seq<Wake>>)
    ensures
      var s := Run(env, budget, IDLE, fires);
      && |s.channel| <= |s.sent| && s.channel == s.sent[|s.sent| - |s.channel|..]
      && Delivered(s.log) == FirstSeen(s.sent[..|s.sent| - |s.channel|])
      && Distinct(Delivered(s.log))
      && (Distinct(s.sent) ==> Delivered(s.log) + s.channel == s.sent)
  {
    hide Inv, Run, FirstSeen;
    RunInOrder(env, budget, fires);
    var s := Run(env, budget, IDLE, fires);
    LedgerIsInjected(s);
    if Distinct(s.sent) {
      FirstSeenDistinct(s.sent[..|s.sent| - |s.channel|]);
    }
  }

  // ---- completion ----

  lemma {:induction false} ReadyIsCompleted(l: Log, i: nat, j: nat)
    requires i < j <= |l| && l[i].PollTask? && l[i].outcome == Ready
    ensures l[i].task in Completed(l[..j])
    decreases j
  {
    assert l[..j][..j - 1] == l[..j - 1];
    if i < j - 1 {
      ReadyIsCompleted(l, i, j - 1);
    }
  }

  /** On every run, once a task's future returned Ready every later poll of it is Invalid. */
  lemma NeverPolledAfterReady(env: Env, budget: nat, fires: seq<seq<Wake>>, i: nat, j: nat)
    requires i < j < |Run(env, budget, IDLE, fires).log|
    requires
      var l := Run(env, budget, IDLE, fires).log;
      l[i].PollTask? && l[i].outcome == Ready && l[j].PollTask? && l[j].task == l[i].task
    ensures Run(env, budget, IDLE, fires).log[j].outcome == Invalid
  {
    hide Inv, Run;
    RunInOrder(env, budget, fires);
    var s := Run(env, budget, IDLE, fires);
    PollsOkOf(s);
    ReadyIsCompleted(s.log, i, j);
    PollOkAt(s.log, j);
  }

  lemma PollsOkOf(s: Exec)
    requires Inv(s)
    ensures PollsOk(s.log)
  {
  }

  /** In every reachable state the slab holds exactly the tasks delivered and not completed. */
  lemma SlabIsUnfinished(env: Env, budget: nat, fires: seq<seq<Wake>>, t: nat)
    ensures
      var s := Run(env, budget, IDLE, fires);
      t in s.slab <==> t in Delivered(s.log) && t !in Completed(s.log)
  {
    hide Run;
    RunInOrder(env, budget, fires);
  }
}
