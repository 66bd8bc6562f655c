/** Wakes by other threads and by fired timers reach the local queue in their order, too. */
module DrainOrder {
  import opened WakeModel
  import opened ReactorModel
  import opened ExecLog
  import opened ExecModel
  import opened ExecInvariant
  import opened TickGrammar
  import opened WakeDelivery
  import opened QueueOrder
  import opened WakeOrder

  // ---- wakes by other threads ----

  lemma {:induction false} PushedAllMembers(w: Wakes, ids: seq<nat>)
    ensures PushedAll(w, ids).reactorReady == w.reactorReady
    ensures forall t :: t in PushedAll(w, ids).taskReady ==> t in w.taskReady || t in ids
  {
    if ids != [] {
      var m := |ids| - 1;
      PushedAllMembers(w, ids[..m]);
      assert ids == ids[..m] + [ids[m]];
    }
  }

  lemma AheadOne(t: nat, a: nat, b: nat)
    ensures Ahead([t], a, b) <==> t == a
  {
    assert t == a ==> [t][0] == a && [t][..0] == [];
  }

  lemma PushGrows(w: Wakes, t: nat)
    ensures w.taskReady <= PushedTask(w, t).taskReady && PushedTask(w, t).reactorReady == w.reactorReady
  {
  }

  /** Pushing `ids` in order: whoever comes first in `ids` comes first in line, wherever it waited before. */
  lemma {:induction false} PushedAllInOrder(s: Exec, ids: seq<nat>, a: nat, b: nat)
    requires NoneLost(s.wakes, s.queue, s.ledger) && Known(s, a, b)
    requires Ahead(ids, a, b) && !Waiting(s.wakes, s.queue, b)
    ensures Ahead(Line(s.(wakes := PushedAll(s.wakes, ids))), a, b)
    decreases |ids|
  {
    hide Ahead, PushedTask, NoneLost;
    if ids == [] {
      AheadSome(ids, a, b);
    } else {
      var m := |ids| - 1;
      assert ids == ids[..m] + [ids[m]];
      AheadConcat(ids[..m], [ids[m]], a, b);
      AheadOne(ids[m], a, b);
      var w0, w := PushedAll(s.wakes, ids[..m]), PushedAll(s.wakes, ids);
      PushGrows(w0, ids[m]);
      PushedAllMembers(s.wakes, ids);
      if Ahead(ids[..m], a, b) {
        PushedAllInOrder(s, ids[..m], a, b);
        var x := w.taskReady[|w0.taskReady|..];
        AheadConcat(Line(s.(wakes := w0)), x, a, b);
        assert Line(s.(wakes := w)) == Line(s.(wakes := w0)) + x;
      } else {
        PushedAllKeeps(s.wakes, s.queue, s.ledger, ids);
        assert a in ids && b !in ids;
        PresentIsAhead(Line(s.(wakes := w)), a, b);
      }
    }
  }

  lemma AheadSome(q: seq<nat>, a: nat, b: nat)
    requires Ahead(q, a, b)
    ensures q != [] && a in q
  {
  }

  /** The drains of both ready queues: whoever is ahead in line is ahead in the local queue. */
  lemma TaskDrainInOrder(s: Exec, a: nat, b: nat)
    requires Known(s, a, b) && s.wakes.reactorReady == []
    requires Ahead(Line(s.(wakes := CrossDrained(s.wakes))), a, b)
    ensures Ahead(TaskDrained(s).queue, a, b)
  {
    hide Ahead, Kept, PushedAll;
    var w := CrossDrained(s.wakes);
    PushedAllMembers(s.wakes, s.wakes.cross);
    assert Line(s.(wakes := w)) == s.queue + w.taskReady + [];
    DrainedAhead(s.queue, w.taskReady, [], s.ledger, a, b);
    assert s.queue + Kept(w.taskReady, s.ledger) + [] == TaskDrained(s).queue;
  }

  /** Foreign wakes reach their queue in the order of their arrival. */
  lemma {:induction false} ForeignArrivalsInOrder(s: Exec, arrivals: seq<Arrival>, j: nat, b: nat)
    requires j < |arrivals| && arrivals[j].WakeBy? && !arrivals[j].onExecutor && arrivals[j].waker.task != b
    requires b !in AllArrived(s, arrivals[..j]).wakes.cross
    ensures Ahead(AllArrived(s, arrivals).wakes.cross, arrivals[j].waker.task, b)
  {
    hide Ahead;
    var m, a := |arrivals| - 1, arrivals[j].waker.task;
    var before := AllArrived(s, arrivals[..m]);
    if j < m {
      assert arrivals[..m][..j] == arrivals[..j];
      ForeignArrivalsInOrder(s, arrivals[..m], j, b);
      var x := if arrivals[m].WakeBy? && !arrivals[m].onExecutor then [arrivals[m].waker.task] else [];
      AheadConcat(before.wakes.cross, x, a, b);
      assert AllArrived(s, arrivals).wakes.cross == before.wakes.cross + x;
    } else {
      PresentIsAhead(before.wakes.cross + [a], a, b);
    }
  }

  /**
   The foreign queue's drain, in a refill or after a park: of two known tasks, `a` ahead of
   `b` among the foreign wakes and `b` not waiting elsewhere, `a` stands ahead in the local
   queue after the drains, and is polled first whatever follows.
   */
  lemma ForeignWakesInOrder(env: Env, s: Exec, a: nat, b: nat, l: Log)
    requires Inv(s) && Known(s, a, b)
    requires
      var x := AllArrived(s, env(|s.log|).before);
      Ahead(x.wakes.cross, a, b) && !Waiting(x.wakes, x.queue, b)
    requires PollsOk(l) && TaskDrained(ReactorDrained(env, s)).log <= l
    ensures
      var d := TaskDrained(ReactorDrained(env, s));
      Ahead(d.queue, a, b) && PolledFirst(l, |d.log|, a, b)
  {
    hide Recorded, Consistent, NoneLost, AllArrived, Ahead, CrossDrained, PollsOk, PolledFirst, Fifo, Kept;
    AllArrivedKeeps(s, env(|s.log|).before);
    ReactorDrainedKeeps(env, s);
    var x, r := AllArrived(s, env(|s.log|).before), ReactorDrained(env, s);
    TaskDrainedKeeps(r);
    ReactorTakenLine(x, b);
    DrainedCross(r, a, b);
    TaskDrainInOrder(r, a, b);
    var d := TaskDrained(r);
    QueueIsFifo(d);
    assert l[..|d.log|] == d.log;
    AheadIsPolledFirst(l, |d.log|, a, b);
  }

  lemma ReactorTakenLine(x: Exec, b: nat)
    requires !Waiting(x.wakes, x.queue, b)
    ensures !Waiting(ReactorTaken(x).wakes, ReactorTaken(x).queue, b)
    ensures ReactorTaken(x).wakes.cross == x.wakes.cross && ReactorTaken(x).ledger == x.ledger
  {
  }

  lemma DrainedCross(s: Exec, a: nat, b: nat)
    requires Inv(s) && Known(s, a, b) && Ahead(s.wakes.cross, a, b) && !Waiting(s.wakes, s.queue, b)
    ensures Ahead(Line(s.(wakes := CrossDrained(s.wakes))), a, b)
  {
    hide Recorded, Consistent, NoneLost, Ahead, PushedAll;
    PushedAllInOrder(s, s.wakes.cross, a, b);
    assert Line(s.(wakes := CrossDrained(s.wakes))) == Line(s.(wakes := PushedAll(s.wakes, s.wakes.cross)));
  }

  // ---- wakes by fired timers ----

  lemma {:induction false} AllWokenSplit(w: Wakes, woken: seq<Wake>, j: nat)
    requires j <= |woken|
    ensures AllWoken(w, woken) == AllWoken(AllWoken(w, woken[..j]), woken[j..])
    decreases |woken|
  {
    hide Woken;
    if j == |woken| {
      assert woken[..j] == woken && woken[j..] == [];
    } else {
      var m := |woken| - 1;
      AllWokenSplit(w, woken[..m], j);
      assert woken[..m][..j] == woken[..j];
      assert woken[j..][..m - j] == woken[..m][j..];
    }
  }

  lemma WokenOneMore(w: Wakes, woken: seq<Wake>, j: nat)
    requires j < |woken|
    ensures AllWoken(w, woken[..j + 1]) == Woken(AllWoken(w, woken[..j]), woken[j].waker, true)
  {
    hide Woken;
    assert woken[..j + 1][..j] == woken[..j];
  }

  lemma {:induction false} AllWokenGrew(w: Wakes, woken: seq<Wake>)
    ensures Grew(w, AllWoken(w, woken))
  {
    hide Woken;
    if woken != [] {
      var m := |woken| - 1;
      AllWokenGrew(w, woken[..m]);
      OneWokenGrew(AllWoken(w, woken[..m]), woken[m].waker);
    }
  }

  lemma StaysIn(u: seq<nat>, v: seq<nat>, t: nat)
    requires u <= v
    ensures t in u ==> t in v
  {
  }

  /** Entries `p` and `q` of the fired timers wake `a` and then `b` as one poll's effects can. */
  ghost predicate FiresInOrder(w: Wakes, queue: seq<nat>, woken: seq<Wake>, p: nat, q: nat)
  {
    && p < q < |woken| && !woken[p].waker.defer && !woken[q].waker.defer
    && woken[p].waker.source == woken[q].waker.source
    && GoesThrough(AllWoken(w, woken[..p]), woken[p].waker.task)
    && !Waiting(AllWoken(w, woken[..q]), queue, woken[q].waker.task)
    && woken[q].waker.task !in AllWoken(w, woken[..q]).deferred
    && !FiredDefers(woken[q + 1..], woken[q].waker.task)
  }

  lemma FiringPutsInLine(s: Exec, woken: seq<Wake>, p: nat, q: nat)
    requires Calm(s) && FiresInOrder(s.wakes, s.queue, woken, p, q)
    requires Known(s, woken[p].waker.task, woken[q].waker.task)
    ensures InLine(s.(wakes := AllWoken(s.wakes, woken)), woken[p].waker.task, woken[q].waker.task)
  {
    hide InLine, Woken, Consistent, NoneLost, FiredDefers;
    var ka, kb, w := woken[p].waker, woken[q].waker, s.wakes;
    AllWokenKeeps(w, s.queue, s.ledger, woken[..q]);
    var wp := AllWoken(w, woken[..p + 1]);
    WokenOneMore(w, woken, p);
    WakeReachesItsQueue(AllWoken(w, woken[..p]), ka);
    AllWokenSplit(w, woken[..q], p + 1);
    assert woken[..q][..p + 1] == woken[..p + 1];
    AllWokenGrew(wp, woken[..q][p + 1..]);
    StaysIn(wp.reactorReady, AllWoken(w, woken[..q]).reactorReady, ka.task);
    StaysIn(wp.taskReady, AllWoken(w, woken[..q]).taskReady, ka.task);
    var c := s.(wakes := AllWoken(w, woken[..q]));
    WakeGoesBehind(c, ka.task, kb);
    WokenOneMore(w, woken, q);
    AllWokenSplit(w, woken, q + 1);
    var d := s.(wakes := AllWoken(w, woken[..q + 1]));
    assert d == Arrived(c, WakeBy(kb, true));
    FiredKeepLine(d, woken[q + 1..], ka.task, kb.task);
  }

  /**
   Timers that fire in one park put their tasks in the local queue in the order they fired
   in, unless something that arrives before its drain defers the second.
   */
  lemma FiredTimersInOrder(env: Env, s: Exec, woken: seq<Wake>, p: nat, q: nat)
    requires Inv(s) && p < q < |woken| && FiresInOrder(AboutToFire(env, s).wakes, s.queue, woken, p, q)
    requires Known(s, woken[p].waker.task, woken[q].waker.task)
    requires !AnyDefers(env(|s.log|).late, woken[q].waker.task)
    requires !AnyDefers(env(|s.log| + 1).before, woken[q].waker.task)
    ensures Ahead(ParkedOnce(env, s, woken).queue, woken[p].waker.task, woken[q].waker.task)
  {
    hide Inv, InLine, FiresInOrder, AboutToFire, Fired, ReactorDrained, TaskDrained, AnyDefers, Parked, Consistent;
    hide Calm;
    var a, b, f, x := woken[p].waker.task, woken[q].waker.task, AboutToFire(env, s), Fired(env, s, woken);
    CalmOf(s);
    AboutToFireKeeps(env, s);
    FiringPutsInLine(f, woken, p, q);
    LateKeepsLine(env, s, woken, a, b);
    FiredKeeps(env, s, woken);
    ReactorDrainedKeeps(env, x);
    ReactorDrainedKeepsLine(env, x, a, b);
    var r := ReactorDrained(env, x);
    TaskDrainedKeeps(r);
    TaskDrainedKeepsLine(r, a, b);
    LineIsQueue(TaskDrained(r), a, b);
  }

  lemma LateKeepsLine(env: Env, s: Exec, woken: seq<Wake>, a: nat, b: nat)
    requires InLine(AboutToFire(env, s).(wakes := AllWoken(AboutToFire(env, s).wakes, woken)), a, b) && b != BLOCK_ON
    requires !AnyDefers(env(|s.log|).late, b)
    ensures InLine(Fired(env, s, woken), a, b)
  {
    hide InLine, AboutToFire, AllWoken, AllArrived, AnyDefers, Expired, FireClock;
    var f := AboutToFire(env, s);
    var x := f.(timers := Expired(f.timers, FireClock(env, s)), wakes := AllWoken(f.wakes, woken));
    SlabIgnored(f.(wakes := AllWoken(f.wakes, woken)), x, a, b);
    ArrivalsKeepLine(x, env(|s.log|).late, a, b);
    SlabIgnored(AllArrived(x, env(|s.log|).late), Fired(env, s, woken), a, b);
  }
}
