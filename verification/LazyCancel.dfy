/**
 Lazy cancellation against eager cancellation, over whole runs. The eager machine gives
 every registration its own number; the reactor may hand a cancelled id out again.
 */
module LazyCancel {
  import opened Options
  import opened TimerRuns
  import opened ReactorModel
  import opened WakeModel

  /** `Cancel(k)` deregisters with the id that the `k`-th registration returned. */
  datatype Call = Register(d: nat, w: Waker) | Cancel(k: nat) | Park(reading: nat)

  /** Timers by registration number. */
  datatype Eager = Eager(live: Timers, count: nat, now: nat)

  /** The reactor, and the ids its registrations returned. */
  datatype Lazy = Lazy(t: Reactive, ids: seq<nat>)

  /** What callers promise: deadlines lie ahead, and handles come from registrations. */
  predicate Allowed(e: Eager, c: Call)
  {
    match c
    case Register(d, w) => e.now < d
    case Cancel(k) => k < e.count
    case Park(_) => true
  }

  function EagerStep(e: Eager, c: Call): Eager
  {
    match c
    case Register(d, w) => e.(live := e.live[e.count := d], count := e.count + 1)
    case Cancel(k) => e.(live := e.live - {k})
    case Park(reading) =>
      var now := if reading >= e.now then reading else e.now;
      e.(live := e.live - Due(e.live, now), now := now)
  }

  function LazyStep(l: Lazy, c: Call): Lazy
    requires c.Cancel? ==> c.k < |l.ids|
  {
    match c
    case Register(d, w) =>
      var rid := RegisteredId(l.t, d);
      Lazy(Registered(l.t, d, w), if rid.Some? then l.ids + [rid.value] else l.ids)
    case Cancel(k) => l.(t := Deregistered(l.t, l.ids[k]))
    case Park(reading) => l.(t := Parked(l.t, reading))
  }

  // ---- the simulation ----

  /** `owned` is `live` with every registration number replaced by its id. */
  ghost predicate Renamed(live: Timers, ids: seq<nat>, owned: Timers)
  {
    && (forall k :: k in live ==> k < |ids| && ids[k] in owned && owned[ids[k]] == live[k])
    && (forall k, k' :: k in live && k' in live && ids[k] == ids[k'] ==> k == k')
    && (forall r :: r in owned ==> Owned(live, ids, r))
  }

  ghost predicate Owned(live: Timers, ids: seq<nat>, r: nat)
  {
    exists k :: k in live && k < |ids| && ids[k] == r
  }

  lemma RenamedInsert(live: Timers, ids: seq<nat>, owned: Timers, r: nat, d: nat)
    requires Renamed(live, ids, owned) && r !in owned
    ensures Renamed(live[|ids| := d], ids + [r], owned[r := d])
  {
    var live', ids' := live[|ids| := d], ids + [r];
    forall x | x in owned[r := d]
      ensures Owned(live', ids', x)
    {
      if x == r {
        assert |ids| in live' && ids'[|ids|] == r;
      } else {
        var k :| k in live && k < |ids| && ids[k] == x;
        assert k in live' && ids'[k] == x;
      }
    }
  }

  lemma RenamedExpire(live: Timers, ids: seq<nat>, owned: Timers, now: nat)
    requires Renamed(live, ids, owned)
    ensures Renamed(live - Due(live, now), ids, owned - Due(owned, now))
  {
    forall x | x in owned - Due(owned, now)
      ensures Owned(live - Due(live, now), ids, x)
    {
      var k :| k in live && k < |ids| && ids[k] == x;
      assert k in live - Due(live, now);
    }
  }

  lemma RenamedRemove(live: Timers, ids: seq<nat>, owned: Timers, k: nat)
    requires Renamed(live, ids, owned) && k < |ids|
    ensures Renamed(live - {k}, ids, owned - {ids[k]}) <==> k in live || ids[k] !in owned
  {
    if k in live || ids[k] !in owned {
      forall x | x in owned - {ids[k]}
        ensures Owned(live - {k}, ids, x)
      {
        var j :| j in live && j < |ids| && ids[j] == x;
        assert j in live - {k};
      }
    } else {
      assert Owned(live, ids, ids[k]);
      var owner :| owner in live && owner < |ids| && ids[owner] == ids[k];
      assert owner in live - {k};
    }
  }

  /** The reactor's live timers are the eager ones, renamed by the ids handed out. */
  ghost predicate Agree(e: Eager, l: Lazy)
  {
    |l.ids| == e.count && l.t.now == e.now && Renamed(e.live, l.ids, Live(l.t))
  }

  /** What holds of the reactor on every run of timer calls. */
  ghost predicate Sound(l: Lazy, calls: nat)
  {
    && Consistent(l.t) && |l.ids| <= calls && l.t.next <= calls + 1
    && (forall k :: 0 <= k < |l.ids| ==> l.ids[k] < l.t.next)
    && (forall r :: r in l.t.slots ==> l.t.slots[r].TimerSlot?)
  }

  /** Cancelling handle `k` is safe: it is still live, or its id is nobody's. */
  ghost predicate Harmless(e: Eager, l: Lazy, c: Call)
  {
    c.Cancel? ==> c.k in e.live || c.k >= |l.ids| || l.ids[c.k] !in Live(l.t)
  }

  lemma SoundStep(e: Eager, l: Lazy, c: Call, n: nat)
    requires Sound(l, n) && Allowed(e, c) && l.t.now == e.now && |l.ids| == e.count && n + 1 < MAX_ID
    ensures Sound(LazyStep(l, c), n + 1)
    ensures |LazyStep(l, c).ids| == EagerStep(e, c).count && LazyStep(l, c).t.now == EagerStep(e, c).now
  {
    match c
    case Register(d, w) => RegisterIsInsert(l.t, d, w);
    case Cancel(k) => DeregisterIsRemove(l.t, l.ids[k]);
    case Park(reading) => ParkFiresLiveDue(l.t, reading);
  }

  lemma AgreeRegister(e: Eager, l: Lazy, c: Call, n: nat)
    requires Agree(e, l) && Sound(l, n) && Allowed(e, c) && n + 1 < MAX_ID && c.Register?
    ensures Agree(EagerStep(e, c), LazyStep(l, c))
  {
    hide Renamed, Registered, Live, Consistent;
    RegisterIsInsert(l.t, c.d, c.w);
    RenamedInsert(e.live, l.ids, Live(l.t), RegisteredId(l.t, c.d).value, c.d);
  }

  lemma AgreePark(e: Eager, l: Lazy, c: Call, n: nat)
    requires Agree(e, l) && Sound(l, n) && c.Park?
    ensures Agree(EagerStep(e, c), LazyStep(l, c))
  {
    hide Renamed, Parked, Live, Consistent;
    ParkFiresLiveDue(l.t, c.reading);
    RenamedExpire(e.live, l.ids, Live(l.t), Clock(l.t, c.reading));
  }

  /** Cancelling keeps the two machines together exactly when it is harmless. */
  lemma AgreeCancel(e: Eager, l: Lazy, c: Call, n: nat)
    requires Agree(e, l) && Sound(l, n) && Allowed(e, c) && c.Cancel?
    ensures Agree(EagerStep(e, c), LazyStep(l, c)) <==> Harmless(e, l, c)
  {
    hide Renamed, Deregistered, Live, Consistent;
    DeregisterIsRemove(l.t, l.ids[c.k]);
    RenamedRemove(e.live, l.ids, Live(l.t), c.k);
  }

  // ---- runs ----

  const EAGER_START: Eager := Eager(map[], 0, 0)
  const LAZY_START: Lazy := Lazy(INITIAL, [])

  ghost function EagerRun(calls: seq<Call>): Eager
  {
    if calls == [] then EAGER_START else EagerStep(EagerRun(calls[..|calls| - 1]), calls[|calls| - 1])
  }

  /** Every call of the run keeps the callers' promises. */
  ghost predicate AllAllowed(calls: seq<Call>)
  {
    forall i :: 0 <= i < |calls| ==> Allowed(EagerRun(calls[..i]), calls[i])
  }

  ghost function LazyRun(calls: seq<Call>): (l: Lazy)
    requires AllAllowed(calls) && |calls| + 1 < MAX_ID
    ensures Sound(l, |calls|) && |l.ids| == EagerRun(calls).count && l.t.now == EagerRun(calls).now
  {
    if calls == [] then LAZY_START
    else
      var m := |calls| - 1;
      AllowedPrefix(calls, m);
      assert calls[..m][..m] == calls[..m];
      SoundStep(EagerRun(calls[..m]), LazyRun(calls[..m]), calls[m], m);
      LazyStep(LazyRun(calls[..m]), calls[m])
  }

  lemma AllowedPrefix(calls: seq<Call>, i: nat)
    requires AllAllowed(calls) && i <= |calls|
    ensures AllAllowed(calls[..i])
  {
    forall j | 0 <= j < i
      ensures Allowed(EagerRun(calls[..i][..j]), calls[..i][j])
    {
      assert calls[..i][..j] == calls[..j];
    }
  }

  ghost predicate AgreeAt(calls: seq<Call>, i: nat)
    requires AllAllowed(calls) && |calls| + 1 < MAX_ID && i <= |calls|
  {
    AllowedPrefix(calls, i);
    Agree(EagerRun(calls[..i]), LazyRun(calls[..i]))
  }

  ghost predicate HarmlessAt(calls: seq<Call>, i: nat)
    requires AllAllowed(calls) && |calls| + 1 < MAX_ID && i < |calls|
  {
    AllowedPrefix(calls, i);
    Harmless(EagerRun(calls[..i]), LazyRun(calls[..i]), calls[i])
  }

  lemma AgreeStep(e: Eager, l: Lazy, c: Call, n: nat)
    requires Agree(e, l) && Sound(l, n) && Allowed(e, c) && n + 1 < MAX_ID
    ensures Agree(EagerStep(e, c), LazyStep(l, c)) <==> Harmless(e, l, c)
  {
    hide Agree, Sound, EagerStep, LazyStep, Live;
    match c
    case Register(_, _) => AgreeRegister(e, l, c, n);
    case Cancel(_) => AgreeCancel(e, l, c, n);
    case Park(_) => AgreePark(e, l, c, n);
  }

  lemma AgreeNext(calls: seq<Call>, i: nat)
    requires AllAllowed(calls) && |calls| + 1 < MAX_ID && i < |calls| && AgreeAt(calls, i)
    ensures AgreeAt(calls, i + 1) <==> HarmlessAt(calls, i)
  {
    hide Agree, Harmless, Sound, EagerStep, LazyStep;
    AllowedPrefix(calls, i);
    AllowedPrefix(calls, i + 1);
    assert calls[..i + 1][..i] == calls[..i];
    AgreeStep(EagerRun(calls[..i]), LazyRun(calls[..i]), calls[i], i);
  }

  lemma AgreeStart(calls: seq<Call>)
    requires AllAllowed(calls) && |calls| + 1 < MAX_ID
    ensures AgreeAt(calls, 0)
  {
    AllowedPrefix(calls, 0);
    assert calls[..0] == [];
  }

  ghost predicate AlwaysAgree(calls: seq<Call>, n: nat)
    requires AllAllowed(calls) && |calls| + 1 < MAX_ID && n <= |calls|
  {
    forall i :: 0 <= i <= n ==> AgreeAt(calls, i)
  }

  ghost predicate AlwaysHarmless(calls: seq<Call>, n: nat)
    requires AllAllowed(calls) && |calls| + 1 < MAX_ID && n <= |calls|
  {
    forall i :: 0 <= i < n ==> HarmlessAt(calls, i)
  }

  /**
   Over every run: lazy and eager cancellation agree after every call exactly when no call
   cancels a dead handle whose id has meanwhile been handed to a live timer.
   */
  lemma {:induction false} LazyRefinesEager(calls: seq<Call>, n: nat)
    requires AllAllowed(calls) && |calls| + 1 < MAX_ID && n <= |calls|
    ensures AlwaysAgree(calls, n) <==> AlwaysHarmless(calls, n)
  {
    hide AgreeAt, HarmlessAt, AllAllowed;
    if n == 0 {
      AgreeStart(calls);
    } else {
      LazyRefinesEager(calls, n - 1);
      if AgreeAt(calls, n - 1) {
        AgreeNext(calls, n - 1);
      }
    }
  }

  // ---- callers that cancel each handle once ----

  ghost function CancelledBy(calls: seq<Call>): set<nat>
  {
    set i | 0 <= i < |calls| && calls[i].Cancel? :: calls[i].k
  }

  /** No handle is cancelled twice. */
  predicate Disciplined(calls: seq<Call>)
  {
    forall i, j :: 0 <= i < j < |calls| && calls[i].Cancel? && calls[j].Cancel? ==> calls[i].k != calls[j].k
  }

  /** An id that is live belongs to a live registration, among those not cancelled. */
  ghost predicate Clean(cancelled: set<nat>, e: Eager, l: Lazy)
  {
    && (forall k :: 0 <= k < |l.ids| && k !in cancelled && l.ids[k] in Live(l.t) ==> k in e.live)
    && (l.t.pending.Some? ==> forall k :: 0 <= k < |l.ids| && l.ids[k] == l.t.pending.value.rid ==> k in cancelled)
  }

  lemma CleanRegister(cancelled: set<nat>, e: Eager, l: Lazy, c: Call, n: nat)
    requires Agree(e, l) && Sound(l, n) && Allowed(e, c) && n + 1 < MAX_ID && c.Register?
    requires Clean(cancelled, e, l)
    ensures Clean(cancelled, EagerStep(e, c), LazyStep(l, c))
  {
    hide Renamed;
    RegisterIsInsert(l.t, c.d, c.w);
  }

  lemma CleanCancel(cancelled: set<nat>, e: Eager, l: Lazy, c: Call, n: nat)
    requires Agree(e, l) && Sound(l, n) && Allowed(e, c) && c.Cancel?
    requires Clean(cancelled, e, l) && c.k !in cancelled
    ensures Clean(cancelled + {c.k}, EagerStep(e, c), LazyStep(l, c))
  {
    DeregisterIsRemove(l.t, l.ids[c.k]);
    FlushedKeeps(l.t);
  }

  lemma CleanPark(cancelled: set<nat>, e: Eager, l: Lazy, c: Call, n: nat)
    requires Agree(e, l) && Sound(l, n) && c.Park?
    requires Clean(cancelled, e, l)
    ensures Clean(cancelled, EagerStep(e, c), LazyStep(l, c))
  {
    ParkFiresLiveDue(l.t, c.reading);
  }

  lemma CleanStep(cancelled: set<nat>, e: Eager, l: Lazy, c: Call, n: nat)
    requires Agree(e, l) && Sound(l, n) && Allowed(e, c) && n + 1 < MAX_ID
    requires Clean(cancelled, e, l) && (c.Cancel? ==> c.k !in cancelled)
    ensures Harmless(e, l, c)
    ensures Clean(cancelled + if c.Cancel? then {c.k} else {}, EagerStep(e, c), LazyStep(l, c))
  {
    hide Agree, Sound, EagerStep, LazyStep, Live;
    CleanHarmless(cancelled, e, l, c);
    match c
    case Register(_, _) => CleanRegister(cancelled, e, l, c, n); assert cancelled + {} == cancelled;
    case Cancel(_) => CleanCancel(cancelled, e, l, c, n);
    case Park(_) => CleanPark(cancelled, e, l, c, n); assert cancelled + {} == cancelled;
  }

  lemma CleanHarmless(cancelled: set<nat>, e: Eager, l: Lazy, c: Call)
    requires Clean(cancelled, e, l) && (c.Cancel? ==> c.k !in cancelled)
    ensures Harmless(e, l, c)
  {
  }

  ghost predicate CleanAt(calls: seq<Call>, i: nat)
    requires AllAllowed(calls) && |calls| + 1 < MAX_ID && i <= |calls|
  {
    AllowedPrefix(calls, i);
    Clean(CancelledBy(calls[..i]), EagerRun(calls[..i]), LazyRun(calls[..i]))
  }

  lemma CleanStart(calls: seq<Call>)
    requires AllAllowed(calls) && |calls| + 1 < MAX_ID
    ensures CleanAt(calls, 0)
  {
    AllowedPrefix(calls, 0);
    assert calls[..0] == [];
  }

  lemma CleanNext(calls: seq<Call>, i: nat)
    requires AllAllowed(calls) && |calls| + 1 < MAX_ID && i < |calls| && Disciplined(calls)
    requires AgreeAt(calls, i) && CleanAt(calls, i)
    ensures HarmlessAt(calls, i) && CleanAt(calls, i + 1)
  {
    hide Agree, Harmless, Sound, Clean, EagerStep, LazyStep;
    AllowedPrefix(calls, i);
    AllowedPrefix(calls, i + 1);
    assert calls[..i + 1][..i] == calls[..i];
    CancelledNext(calls, i);
    CleanStep(CancelledBy(calls[..i]), EagerRun(calls[..i]), LazyRun(calls[..i]), calls[i], i);
  }

  lemma CancelledNext(calls: seq<Call>, i: nat)
    requires i < |calls| && Disciplined(calls)
    ensures CancelledBy(calls[..i + 1]) == CancelledBy(calls[..i]) + if calls[i].Cancel? then {calls[i].k} else {}
    ensures calls[i].Cancel? ==> calls[i].k !in CancelledBy(calls[..i])
  {
    forall k | k in CancelledBy(calls[..i])
      ensures k in CancelledBy(calls[..i + 1])
    {
      var j :| 0 <= j < i && calls[..i][j].Cancel? && calls[..i][j].k == k;
      assert calls[..i + 1][j].Cancel? && calls[..i + 1][j].k == k;
    }
    if calls[i].Cancel? {
      assert calls[..i + 1][i].Cancel? && calls[..i + 1][i].k == calls[i].k;
    }
    forall k | k in CancelledBy(calls[..i + 1])
      ensures k in CancelledBy(calls[..i]) || (calls[i].Cancel? && k == calls[i].k)
    {
      var j :| 0 <= j < i + 1 && calls[..i + 1][j].Cancel? && calls[..i + 1][j].k == k;
      if j < i { assert calls[..i][j].Cancel? && calls[..i][j].k == k; }
    }
  }

  /** Callers that cancel each handle at most once never see the difference. */
  lemma {:induction false} CancelOnceAgrees(calls: seq<Call>, n: nat)
    requires AllAllowed(calls) && |calls| + 1 < MAX_ID && n <= |calls| && Disciplined(calls)
    ensures AlwaysAgree(calls, n) && CleanAt(calls, n)
  {
    hide AgreeAt, HarmlessAt, CleanAt, AllAllowed, Disciplined;
    if n == 0 {
      AgreeStart(calls);
      CleanStart(calls);
    } else {
      CancelOnceAgrees(calls, n - 1);
      CleanNext(calls, n - 1);
      AgreeNext(calls, n - 1);
    }
  }

  /**
   Cancelling one handle twice can cancel somebody else's timer: the second registration
   takes over the cancelled id, and the stale handle still names it.
   */
  lemma StaleCancelHitsNewOwner(d: nat, w: Waker, w': Waker)
    requires 0 < d
    ensures
      var calls := [Register(d, w), Cancel(0), Register(d, w'), Cancel(0)];
      && AllAllowed(calls)
      && EagerRun(calls).live == map[1 := d]
      && Live(LazyRun(calls).t) == map[]
  {
    var c0: seq<Call> := [Register(d, w)];
    var c1, c2 := c0 + [Cancel(0)], c0 + [Cancel(0), Register(d, w')];
    var calls := c2 + [Cancel(0)];
    assert calls == [Register(d, w), Cancel(0), Register(d, w'), Cancel(0)];
    assert c0[..0] == [] && c1[..1] == c0 && c2[..2] == c1 && calls[..3] == c2;
    assert calls[..0] == [] && calls[..1] == c0 && calls[..2] == c1;
    assert EagerRun(c0) == Eager(map[0 := d], 1, 0);
    assert EagerRun(c1) == Eager(map[], 1, 0);
    assert EagerRun(c2) == Eager(map[1 := d], 2, 0);
    forall i | 0 <= i < 4
      ensures Allowed(EagerRun(calls[..i]), calls[i])
    {
    }
    AllowedPrefix(calls, 3);
    AllowedPrefix(calls, 2);
    AllowedPrefix(calls, 1);
    assert LazyRun([]) == LAZY_START;
    assert LazyRun(c0) == Lazy(Reactive(map[1 := d], map[1 := TimerSlot(d, w)], None, 2, 0), [1]);
    assert LazyRun(c1) == Lazy(Reactive(map[1 := d], map[1 := TimerSlot(d, w)], Some(Cancelled(1, d)), 2, 0), [1]);
    assert LazyRun(c2) == Lazy(Reactive(map[1 := d], map[1 := TimerSlot(d, w')], None, 2, 0), [1, 1]);
    assert LazyRun(calls).t == Deregistered(LazyRun(c2).t, 1);
  }
}
