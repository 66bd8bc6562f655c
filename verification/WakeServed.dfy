/** Every wake, at whatever event of a run it was raised, is followed by a poll within a bound. */
module WakeServed {
  import opened WakeModel
  import opened ReactorModel
  import opened ExecLog
  import opened ExecModel
  import opened ExecInvariant
  import opened BoundedWaiting
  import opened TickGrammar
  import opened WakeDelivery

  /** From just after a tick's park, index `p` is polled within `p / budget + 1` further ticks. */
  lemma PolledAfterPark(env: Env, budget: nat, s: Exec, fires: seq<seq<Wake>>, p: nat)
    requires Inv(s) && 1 <= budget && fires != []
    requires p < |ThroughPark(env, budget, s, fires[0]).queue| && |fires| >= p / budget + 2
    ensures
      var park := ThroughPark(env, budget, s, fires[0]);
      PolledSince(Run(env, budget, s, fires).log, |park.log|, park.queue[p])
  {
    hide Inv, ThroughPark, PollLoop, FirstLoop, FireClock;
    var park := ThroughPark(env, budget, s, fires[0]);
    var count := FirstLoop(env, budget, s).count;
    ThroughParkKeeps(env, budget, s, fires[0]);
    FirstLoopKeeps(env, budget, s);
    TickKeeps(env, budget, s, fires[0]);
    LoopServes(env, budget, park, count, p);
    var s1 := Tick(env, budget, s, fires[0]);
    assert fires[..1] == [fires[0]];
    assert [fires[0]][..0] == [];
    assert Run(env, budget, s, fires[..1]) == s1;
    RunSplit(env, budget, s, fires, 1);
    RunKeeps(env, budget, s1, fires[1..]);
    var r := Run(env, budget, s, fires);
    if count + p < budget {
      PolledLater(PollLoop(env, budget, park, count).s.log, r.log, |park.log|, |park.log|, park.queue[p]);
    } else {
      var p' := p - (budget - count);
      BudgetsCover(p, budget, |fires[1..]|);
      PolledWithinBudgets(env, budget, s1, fires[1..], p');
      PolledLater(r.log, r.log, |s1.log|, |park.log|, park.queue[p]);
    }
  }

  /** A task that waits when a tick begins is polled in time. */
  lemma WaitingTaskServed(env: Env, budget: nat, s: Exec, fires: seq<seq<Wake>>, t: nat)
    requires Inv(s) && 1 <= budget && fires != [] && t in s.ledger
    requires t in s.wakes.notified || Awaited(s, t)
    ensures
      var park := ThroughPark(env, budget, s, fires[0]);
      || PolledSince(park.log, |s.log|, t)
      || exists p :: 0 <= p < |park.queue| && park.queue[p] == t
                     && (|fires| >= p / budget + 2 ==> PolledSince(Run(env, budget, s, fires).log, |park.log|, t))
  {
    hide Inv, ThroughPark, Called;
    if t in s.wakes.notified { CalmOf(s); NotifiedIsCalled(s, t); }
    ServedByPark(env, budget, s, fires[0], t);
    QueuedServed(env, budget, s, fires, t);
  }

  lemma QueuedServed(env: Env, budget: nat, s: Exec, fires: seq<seq<Wake>>, t: nat)
    requires Inv(s) && 1 <= budget && fires != []
    ensures
      var park := ThroughPark(env, budget, s, fires[0]);
      t in park.queue ==>
        exists p :: 0 <= p < |park.queue| && park.queue[p] == t
                    && (|fires| >= p / budget + 2 ==> PolledSince(Run(env, budget, s, fires).log, |park.log|, t))
  {
    hide Inv, ThroughPark;
    var park := ThroughPark(env, budget, s, fires[0]);
    if t in park.queue {
      var p :| 0 <= p < |park.queue| && park.queue[p] == t;
      if |fires| >= p / budget + 2 {
        PolledAfterPark(env, budget, s, fires, p);
      }
    }
  }

  // ---- one tick ----

  lemma {:induction false} DeliveredPrefix(l: Log, i: nat)
    requires i <= |l|
    ensures Delivered(l[..i]) <= Delivered(l) && Injected(l[..i]) <= Injected(l)
  {
    if i < |l| {
      var m := |l| - 1;
      assert l[..m][..i] == l[..i];
      DeliveredPrefix(l[..m], i);
    } else {
      assert l[..i] == l;
    }
  }

  /** Who was injected before position `i` is in the ledger of every later state. */
  lemma KnownLater(s: Exec, l: Log, i: nat, t: nat)
    requires Inv(s) && s.log <= l && i <= |s.log| && t in Injected(l[..i])
    ensures t in s.ledger
  {
    hide Recorded, Calm, Injected, Delivered;
    assert l[..i] == s.log[..i];
    DeliveredPrefix(s.log, i);
    LedgerOf(s);
  }

  lemma PlainIgnoresFired(env: Env, l: Log, i: nat, fired: seq<Wake>, t: nat)
    requires i < |l| && l[i] != Park
    ensures Calls(env, l, i, fired, t) == Calls(env, l, i, [], t)
    ensures Defers(env, l, i, fired, t) == Defers(env, l, i, [], t)
  {
  }

  /** What a tick's opening raises: only its first event does. */
  lemma OpeningRaises(env: Env, s: Exec, fired: seq<Wake>, i: nat, t: nat)
    requires Inv(s) && |s.log| <= i < |Opened(env, s).log| && t in Injected(Opened(env, s).log[..i])
    ensures Calls(env, Opened(env, s).log, i, fired, t) ==> Called(Opened(env, s), t)
    ensures !Defers(env, Opened(env, s).log, i, fired, t)
  {
    hide Opened, Recorded, Calm, Called, AnyEffectCalls, AnyEffectDefers, Injected, AnyCalls, AnyDefers;
    OpenedShape(env, s);
    OpenedCalled(env, s);
    if i == |s.log| {
      assert Opened(env, s).log[..i] == s.log;
      LedgerOf(s);
    }
  }

  /** What a poll loop raises is answered when it ends. */
  lemma LoopAnswers(env: Env, budget: nat, s: Exec, count: nat, fired: seq<Wake>, i: nat, t: nat)
    requires Inv(s) && |s.log| <= i < |PollLoop(env, budget, s, count).s.log|
    requires t in Injected(PollLoop(env, budget, s, count).s.log[..i])
    ensures
      var r := PollLoop(env, budget, s, count).s;
      Answered(r, i, t, Calls(env, r.log, i, fired, t), Defers(env, r.log, i, fired, t))
  {
    hide Inv, PollLoop, Calls, Defers, Injected, Answered;
    LoopRaises(env, budget, s, count, i, t);
    PollLoopPlain(env, budget, s, count);
    PlainIgnoresFired(env, PollLoop(env, budget, s, count).s.log, i, fired, t);
  }

  /** What a tick raises up to its park is in the local queue right after the park, or was polled. */
  lemma RaisedByPark(env: Env, budget: nat, s: Exec, woken: seq<Wake>, i: nat, t: nat)
    requires Inv(s) && |s.log| <= i < |ThroughPark(env, budget, s, woken).log|
    requires t in Injected(ThroughPark(env, budget, s, woken).log[..i])
    ensures
      var p := ThroughPark(env, budget, s, woken);
      && (Calls(env, p.log, i, woken, t) ==> t in p.queue || PolledSince(p.log, i + 1, t))
      && (Defers(env, p.log, i, woken, t) ==> t in p.wakes.deferred)
  {
    hide Inv, Opened, PollLoop, ParkedOnce, Parked, FireClock, Calls, Defers, Injected, Called, KeepsCalled;
    var o, r, p := Opened(env, s), FirstLoop(env, budget, s).s, ThroughPark(env, budget, s, woken);
    OpenedKeeps(env, s);
    PollLoopKeeps(env, budget, o, 0);
    ParkedKeeps(env, r, woken);
    if i < |o.log| {
      CallsPrefix(env, o.log, p.log, i, woken, t);
      OpeningRaises(env, s, woken, i, t);
      KnownLater(o, p.log, i, t);
      if Called(o, t) { CalledByPark(env, budget, s, woken, i + 1, t); }
    } else if i < |r.log| {
      CallsPrefix(env, r.log, p.log, i, woken, t);
      LoopAnswers(env, budget, o, 0, woken, i, t);
      KnownLater(r, p.log, i, t);
      AnswerParks(env, r, woken, i, t, Calls(env, r.log, i, woken, t), Defers(env, r.log, i, woken, t));
    } else {
      ParkRaises(env, r, woken, i, t);
    }
  }

  lemma AnswerParks(env: Env, r: Exec, woken: seq<Wake>, i: nat, t: nat, calls: bool, defers: bool)
    requires Inv(r) && t in r.ledger && i < |r.log| && Answered(r, i, t, calls, defers)
    ensures
      var p := ParkedOnce(env, r, woken);
      && (calls ==> t in p.queue || PolledSince(p.log, i + 1, t))
      && (defers ==> t in p.wakes.deferred)
  {
    hide Inv, ParkedOnce, Parked, FireClock, Called;
    ParkedKeeps(env, r, woken);
    ParkedCalled(env, r, woken);
    var p := ParkedOnce(env, r, woken);
    if PolledSince(r.log, i + 1, t) {
      PolledLater(r.log, p.log, i + 1, i + 1, t);
    }
  }

  /** Whatever a tick raises waits, is deferred, or was polled later in that tick, when it ends. */
  lemma TickRaises(env: Env, budget: nat, s: Exec, woken: seq<Wake>, i: nat, t: nat)
    requires Inv(s) && |s.log| <= i < |Tick(env, budget, s, woken).log|
    requires t in Injected(Tick(env, budget, s, woken).log[..i])
    ensures
      var p, s' := ThroughPark(env, budget, s, woken), Tick(env, budget, s, woken);
      && p.log <= s'.log
      && (Calls(env, s'.log, i, woken, t) && i < |p.log| ==> t in p.queue || PolledSince(p.log, i + 1, t))
      && (Calls(env, s'.log, i, woken, t) ==> Called(s', t) || PolledSince(s'.log, i + 1, t))
      && (Defers(env, s'.log, i, woken, t) ==> t in s'.wakes.deferred)
  {
    hide Inv, ThroughPark, PollLoop, FirstLoop, FireClock, Calls, Defers, Injected, Called;
    var p, count := ThroughPark(env, budget, s, woken), FirstLoop(env, budget, s).count;
    var s' := Tick(env, budget, s, woken);
    ThroughParkKeeps(env, budget, s, woken);
    TickKeeps(env, budget, s, woken);
    PollLoopKeeps(env, budget, p, count);
    var r := PollLoop(env, budget, p, count).s;
    if i < |p.log| {
      CallsPrefix(env, p.log, s'.log, i, woken, t);
      RaisedByPark(env, budget, s, woken, i, t);
      KnownLater(p, s'.log, i, t);
      ParkToEnd(env, budget, s, woken, i + 1, t);
    } else if i < |r.log| {
      CallsPrefix(env, r.log, s'.log, i, woken, t);
      LoopAnswers(env, budget, p, count, woken, i, t);
      AnswerEnds(r, i, t, Calls(env, r.log, i, woken, t), Defers(env, r.log, i, woken, t));
    } else {
      NothingAtEnd(env, s'.log, i, woken, t);
    }
  }

  lemma AnswerEnds(r: Exec, i: nat, t: nat, calls: bool, defers: bool)
    requires Answered(r, i, t, calls, defers)
    ensures calls ==> Called(Logged(r, TickEnd), t) || PolledSince(Logged(r, TickEnd).log, i + 1, t)
    ensures defers ==> t in Logged(r, TickEnd).wakes.deferred
  {
    if PolledSince(r.log, i + 1, t) {
      PolledLater(r.log, Logged(r, TickEnd).log, i + 1, i + 1, t);
    }
  }

  lemma NothingAtEnd(env: Env, l: Log, i: nat, fired: seq<Wake>, t: nat)
    requires i < |l| && l[i] == TickEnd
    ensures !Calls(env, l, i, fired, t) && !Defers(env, l, i, fired, t)
  {
  }

  // ---- runs ----

  /** The tick of a run that logged position `i`. */
  lemma {:induction false} TickOf(env: Env, budget: nat, s: Exec, fires: seq<seq<Wake>>, i: nat) returns (n: nat)
    requires Inv(s) && |s.log| <= i < |Run(env, budget, s, fires).log|
    ensures n < |fires|
    ensures |Run(env, budget, s, fires[..n]).log| <= i < |Run(env, budget, s, fires[..n + 1]).log|
  {
    hide Inv, Tick;
    var m := |fires| - 1;
    if i < |Run(env, budget, s, fires[..m]).log| {
      n := TickOf(env, budget, s, fires[..m], i);
      assert fires[..m][..n] == fires[..n] && fires[..m][..n + 1] == fires[..n + 1];
    } else {
      n := m;
      assert fires[..n + 1] == fires;
    }
  }

  /** After the park of tick `m`, `t` was polled since `i`, or stands in line and is polled in time. */
  ghost predicate ServedAt(env: Env, budget: nat, s: Exec, fires: seq<seq<Wake>>, m: nat, i: nat, t: nat)
    requires 1 <= budget && m < |fires|
  {
    var park := ThroughPark(env, budget, Run(env, budget, s, fires[..m]), fires[m]);
    || PolledSince(park.log, i + 1, t)
    || exists p :: 0 <= p < |park.queue| && park.queue[p] == t && i < |park.log|
                   && (|fires| >= m + p / budget + 2 ==> PolledSince(Run(env, budget, s, fires).log, |park.log|, t))
  }

  lemma InLineServed(env: Env, budget: nat, s: Exec, fires: seq<seq<Wake>>, m: nat, i: nat, t: nat)
    requires Inv(s) && 1 <= budget && m < |fires|
    requires
      var park := ThroughPark(env, budget, Run(env, budget, s, fires[..m]), fires[m]);
      i < |park.log| && (t in park.queue || PolledSince(park.log, i + 1, t))
    ensures ServedAt(env, budget, s, fires, m, i, t)
  {
    hide Inv, ThroughPark, Tick;
    RunKeeps(env, budget, s, fires[..m]);
    var r := Run(env, budget, s, fires[..m]);
    RunSplit(env, budget, s, fires, m);
    assert fires[m..][0] == fires[m];
    QueuedServed(env, budget, r, fires[m..], t);
  }

  lemma RunIsTick(env: Env, budget: nat, s: Exec, fires: seq<seq<Wake>>, n: nat)
    requires Inv(s) && n < |fires|
    ensures
      var r, r' := Run(env, budget, s, fires[..n]), Run(env, budget, s, fires[..n + 1]);
      && r' == Tick(env, budget, r, fires[n]) && Inv(r) && Inv(r')
      && r'.log <= Run(env, budget, s, fires).log
  {
    hide Inv, Tick;
    assert fires[..n + 1][..n] == fires[..n];
    RunKeeps(env, budget, s, fires[..n]);
    RunKeeps(env, budget, s, fires[..n + 1]);
    RunSplit(env, budget, s, fires, n + 1);
    RunKeeps(env, budget, Run(env, budget, s, fires[..n + 1]), fires[n + 1..]);
  }

  /**
   No wake is lost, over whole runs. Take any event of a run, at log position `i` in tick
   `n`, and any task `t` injected before it. If the event wakes `t` no later than that
   tick's park, `t` is polled after `i` and before the park, or stands at some index `p`
   right after it and is polled within `p / budget + 1` further ticks. If it wakes `t`
   later in the tick, or defers it, the same holds of the next tick's park; and if the run
   ends first, `t` was polled after `i` or still waits.
   */
  lemma EveryWakeServed(env: Env, budget: nat, s: Exec, fires: seq<seq<Wake>>, i: nat, t: nat) returns (n: nat)
    requires Inv(s) && 1 <= budget && |s.log| <= i < |Run(env, budget, s, fires).log|
    requires t in Injected(Run(env, budget, s, fires).log[..i])
    ensures n < |fires|
    ensures |Run(env, budget, s, fires[..n]).log| <= i < |Run(env, budget, s, fires[..n + 1]).log|
    ensures
      var l := Run(env, budget, s, fires).log;
      var park := ThroughPark(env, budget, Run(env, budget, s, fires[..n]), fires[n]);
      && (Calls(env, l, i, fires[n], t) && i < |park.log| ==> ServedAt(env, budget, s, fires, n, i, t))
      && (Calls(env, l, i, fires[n], t) || Defers(env, l, i, fires[n], t) ==>
           if n + 1 < |fires| then ServedAt(env, budget, s, fires, n + 1, i, t)
           else Awaited(Run(env, budget, s, fires), t) || PolledSince(l, i + 1, t))
  {
    hide Inv, Tick, ThroughPark, Calls, Defers, Injected, Called, ServedAt, Run;
    n := TickOf(env, budget, s, fires, i);
    RunIsTick(env, budget, s, fires, n);
    var l := Run(env, budget, s, fires).log;
    var r, r' := Run(env, budget, s, fires[..n]), Run(env, budget, s, fires[..n + 1]);
    CallsPrefix(env, r'.log, l, i, fires[n], t);
    TickRaises(env, budget, r, fires[n], i, t);
    var park := ThroughPark(env, budget, r, fires[n]);
    if Calls(env, l, i, fires[n], t) && i < |park.log| {
      InLineServed(env, budget, s, fires, n, i, t);
    }
    if Calls(env, l, i, fires[n], t) || Defers(env, l, i, fires[n], t) {
      if n + 1 < |fires| {
        KnownLater(r', l, i, t);
        NextParkServes(env, budget, s, fires, n + 1, i, t);
      } else {
        assert fires[..n + 1] == fires;
      }
    }
  }

  lemma NextParkServes(env: Env, budget: nat, s: Exec, fires: seq<seq<Wake>>, m: nat, i: nat, t: nat)
    requires Inv(s) && 1 <= budget && m < |fires|
    requires
      var r := Run(env, budget, s, fires[..m]);
      i < |r.log| && t in r.ledger && (Awaited(r, t) || PolledSince(r.log, i + 1, t))
    ensures ServedAt(env, budget, s, fires, m, i, t)
  {
    hide Inv, Tick, ThroughPark, Called, ServedAt;
    var r := Run(env, budget, s, fires[..m]);
    RunKeeps(env, budget, s, fires[..m]);
    ThroughParkKeeps(env, budget, r, fires[m]);
    var park := ThroughPark(env, budget, r, fires[m]);
    if PolledSince(r.log, i + 1, t) {
      PolledLater(r.log, park.log, i + 1, i + 1, t);
    } else {
      ServedByPark(env, budget, r, fires[m], t);
      if PolledSince(park.log, |r.log|, t) {
        PolledLater(park.log, park.log, |r.log|, i + 1, t);
      }
    }
    InLineServed(env, budget, s, fires, m, i, t);
  }
}
