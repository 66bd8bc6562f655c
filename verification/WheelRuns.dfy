/** Runs played on the wheel itself: what `TimerRuns` says of the map holds of the wheel. */
module WheelRuns {
  import opened Options
  import opened Seqs
  import opened TimerRuns
  import opened TimerWheels
  import WheelModel

  /** The clock after a run: the last drain's. */
  function ClockOf(ops: seq<Op>): nat
  {
    if ops == [] then 0
    else
      var op := ops[|ops| - 1];
      if op.Drain? then op.now else ClockOf(ops[..|ops| - 1])
  }

  /** `fired` lists the ids of `due`, each once. */
  ghost predicate Lists(fired: seq<nat>, due: set<nat>)
  {
    Distinct(fired) && Members(fired) == due
  }

  /** Part of the way through a drain: what fired is gone, was due, and fired once. */
  ghost predicate Firing(m0: Timers, m: Timers, fired: seq<nat>, now: nat)
  {
    && Distinct(fired)
    && (forall r :: r in fired ==> r in m0 && m0[r] <= now)
    && m == m0 - Members(fired)
  }

  lemma FiringNext(m0: Timers, m: Timers, fired: seq<nat>, now: nat, r: nat)
    requires Firing(m0, m, fired, now) && r in m && m[r] <= now
    ensures Firing(m0, m - {r}, fired + [r], now) && |m - {r}| < |m|
  {
    OneLess(m, r);
    assert Members(fired + [r]) == Members(fired) + {r};
  }

  lemma OneLess(m: Timers, r: nat)
    requires r in m
    ensures |m - {r}| < |m|
  {
    assert |(m - {r}).Keys| == |m.Keys| - 1;
  }

  lemma FiringDone(m0: Timers, m: Timers, fired: seq<nat>, now: nat)
    requires Firing(m0, m, fired, now) && forall r :: r in m ==> now < m[r]
    ensures Lists(fired, Due(m0, now)) && m == Step(m0, Drain(now))
  {
    assert forall r :: r in Due(m0, now) ==> r in fired || r in m;
    assert Members(fired) == Due(m0, now);
  }

  /** Drain-at-now: `try_pop_expired` until it returns None. */
  method DrainAt(wheel: TimerWheel, now: nat) returns (fired: seq<nat>)
    requires wheel.Valid() && wheel.elapsed <= now
    modifies wheel
    ensures wheel.Valid() && wheel.pending == [] && wheel.elapsed == now
    ensures wheel.deadlines == Step(old(wheel.deadlines), Drain(now))
    ensures Lists(fired, Due(old(wheel.deadlines), now))
  {
    hide WheelModel.WellFormed, WheelModel.Tight, TimerWheel.State, TimerWheel.Valid, Firing;
    ghost var m0 := wheel.deadlines;
    fired := [];
    assert Firing(m0, m0, [], now) by { FiringStart(m0, now); }
    var done := false;
    while !done
      invariant wheel.Valid() && wheel.elapsed <= now
      invariant Firing(m0, wheel.deadlines, fired, now)
      invariant done ==>
        wheel.pending == [] && wheel.elapsed == now && forall r :: r in wheel.deadlines ==> now < wheel.deadlines[r]
      decreases |wheel.deadlines|, !done
    {
      ghost var m := wheel.deadlines;
      var popped := wheel.TryPopExpired(now);
      if popped.Some? {
        FiringNext(m0, m, fired, now, popped.value);
        fired := fired + [popped.value];
      }
      done := popped.None?;
    }
    FiringDone(m0, wheel.deadlines, fired, now);
  }

  lemma FiringStart(m: Timers, now: nat)
    ensures Firing(m, m, [], now)
  {
    assert m - Members([]) == m;
  }

  /** What a run fired up to now: each drain's ids are the due ones, once each. */
  ghost predicate FiredRight(ops: seq<Op>, fired: seq<seq<nat>>)
  {
    && |fired| <= |ops|
    && forall i :: 0 <= i < |fired| ==>
         if ops[i].Drain? then Lists(fired[i], Due(Timeline(ops[..i]), ops[i].now)) else fired[i] == []
  }

  /** What the wheel asks of its callers: deadlines lie ahead, and the clock does not go back. */
  predicate Allows(op: Op, clock: nat)
  {
    match op
    case Insert(_, d) => clock < d
    case Remove(_) => true
    case Drain(now) => clock <= now
  }

  /** One operation on the wheel, and what it fired. */
  method PlayOne(wheel: TimerWheel, op: Op) returns (fired: seq<nat>)
    requires wheel.Valid() && wheel.pending == [] && Allows(op, wheel.elapsed)
    modifies wheel
    ensures wheel.Valid() && wheel.pending == []
    ensures wheel.deadlines == Step(old(wheel.deadlines), op)
    ensures wheel.elapsed == if op.Drain? then op.now else old(wheel.elapsed)
    ensures if op.Drain? then Lists(fired, Due(old(wheel.deadlines), op.now)) else fired == []
  {
    hide WheelModel.WellFormed, TimerWheel.State, TimerWheel.Valid, Lists;
    fired := [];
    match op {
      case Insert(r, d) => wheel.Insert(r, d);
      case Remove(r) => wheel.Remove(r);
      case Drain(now) => fired := DrainAt(wheel, now);
    }
  }

  /**
   A run on a new wheel. After every operation the wheel stands for the run's map, and an
   id fires in operation `i` exactly when that is the first drain to reach the deadline of
   the id's latest insertion, which nothing removed or replaced before.
   */
  method Play(ops: seq<Op>) returns (wheel: TimerWheel, fired: seq<seq<nat>>)
    requires forall i :: 0 <= i < |ops| ==> Allows(ops[i], ClockOf(ops[..i]))
    ensures wheel.Valid() && wheel.pending == [] && wheel.deadlines == Timeline(ops) && wheel.elapsed == ClockOf(ops)
    ensures |fired| == |ops| && FiredRight(ops, fired)
    ensures forall i, r :: 0 <= i < |ops| ==>
      (r in fired[i] <==>
        ops[i].Drain? && exists j :: 0 <= j < i && Armed(ops, j, i, r) && ops[j].d <= ops[i].now)
  {
    hide WheelModel.WellFormed, TimerWheel.State, TimerWheel.Valid, Lists;
    wheel := new TimerWheel();
    fired := [];
    var n := 0;
    assert ops[..0] == [];
    while n < |ops|
      invariant n <= |ops| && |fired| == n && FiredRight(ops, fired)
      invariant fresh(wheel) && wheel.Valid() && wheel.pending == []
      invariant wheel.deadlines == Timeline(ops[..n]) && wheel.elapsed == ClockOf(ops[..n])
    {
      assert ops[..n + 1][..n] == ops[..n];
      var now := PlayOne(wheel, ops[n]);
      fired := fired + [now];
      n := n + 1;
    }
    assert ops[..n] == ops;
    AllFiredAt(ops, fired);
  }

  lemma AllFiredAt(ops: seq<Op>, fired: seq<seq<nat>>)
    requires FiredRight(ops, fired) && |fired| == |ops|
    ensures forall i, r :: 0 <= i < |ops| ==>
      (r in fired[i] <==>
        ops[i].Drain? && exists j :: 0 <= j < i && Armed(ops, j, i, r) && ops[j].d <= ops[i].now)
  {
    forall i, r | 0 <= i < |ops|
      ensures r in fired[i] <==>
        ops[i].Drain? && exists j :: 0 <= j < i && Armed(ops, j, i, r) && ops[j].d <= ops[i].now
    {
      FiredAt(ops, fired, i, r);
    }
  }

  lemma FiredAt(ops: seq<Op>, fired: seq<seq<nat>>, i: nat, r: nat)
    requires FiredRight(ops, fired) && i < |fired|
    ensures r in fired[i] <==>
      ops[i].Drain? && exists j :: 0 <= j < i && Armed(ops, j, i, r) && ops[j].d <= ops[i].now
  {
    FiresExactlyWhenDue(ops, i, r);
    FiresAsPlayed(ops, fired, i, r);
  }

  /** Between two firings of one id in a played run lies an insertion of it. */
  lemma PlayedOncePerInsertion(ops: seq<Op>, fired: seq<seq<nat>>, i: nat, i': nat, r: nat)
    requires FiredRight(ops, fired) && i < i' < |fired| && r in fired[i] && r in fired[i']
    ensures exists j :: i < j < i' && ops[j].Insert? && ops[j].r == r
  {
    FiresAsPlayed(ops, fired, i, r);
    FiresAsPlayed(ops, fired, i', r);
    FiresOncePerInsertion(ops, i, i', r);
  }

  /** An inserted id that nobody cancels fires, and fires first, by the time a drain reaches its deadline. */
  lemma PlayedUnlessCancelled(ops: seq<Op>, fired: seq<seq<nat>>, j: nat, i: nat, r: nat) returns (k: nat)
    requires FiredRight(ops, fired) && j < i < |fired| && ops[j].Insert? && ops[j].r == r
    requires ops[i].Drain? && ops[j].d <= ops[i].now
    requires forall k :: j < k < i && (ops[k].Insert? || ops[k].Remove?) ==> ops[k].r != r
    ensures j < k <= i && r in fired[k] && forall q :: j < q < k ==> r !in fired[q]
  {
    k := FiresUnlessCancelled(ops, j, i, r);
    forall q | j < q <= k
      ensures r in fired[q] <==> Fires(ops, q, r)
    {
      FiresAsPlayed(ops, fired, q, r);
    }
  }

  lemma FiresAsPlayed(ops: seq<Op>, fired: seq<seq<nat>>, i: nat, r: nat)
    requires FiredRight(ops, fired) && i < |fired|
    ensures r in fired[i] <==> Fires(ops, i, r)
  {
    if ops[i].Drain? {
      assert r in fired[i] <==> r in Members(fired[i]);
    }
  }
}
