/** The reactor's timer side, updated in place: wheel, resource slab, kept-back cancellation. */
module Reactors {
  import opened Options
  import opened Window
  import opened Slabs
  import opened TimerWheels
  import opened TimerRuns
  import opened ReactorModel
  import opened WakeModel
  import WheelScan
  import WheelModel

  class Reactor {
    const wheel: TimerWheel
    const resources: Slab<Slot>
    var pendingDeregister: Option<Cancelled>
    var nextResourceId: nat

    ghost function State(): Reactive
      reads this, wheel, resources
    {
      Reactive(wheel.deadlines, resources.View(), pendingDeregister, nextResourceId, wheel.elapsed)
    }

    /** The wheel is well formed, drained, and agrees with the slab. */
    ghost predicate Valid()
      reads this, wheel, resources
    {
      wheel.Valid() && wheel.pending == [] && wheel.cachedMin == None && Consistent(State())
    }

    constructor ()
      ensures Valid() && State() == INITIAL
      ensures fresh(wheel) && fresh(resources)
    {
      wheel := new TimerWheel();
      resources := new Slab();
      pendingDeregister := None;
      nextResourceId := 1;
    }

    method AllocResourceId() returns (result: Option<nat>)
      modifies this`nextResourceId
      ensures result == Fresh(old(State()))
      ensures result == if old(nextResourceId) < MAX_ID then Some(old(nextResourceId)) else None
      ensures nextResourceId == old(nextResourceId) + if result.Some? then 1 else 0
    {
      if nextResourceId >= MAX_ID {
        return None;
      }
      result := Some(nextResourceId);
      nextResourceId := nextResourceId + 1;
    }

    method Forget(rid: nat)
      requires wheel.Valid() && wheel.pending == []
      modifies wheel, resources
      ensures wheel.Valid() && wheel.pending == [] && State() == Forgotten(old(State()), rid)
      ensures old(wheel.cachedMin) == None ==> wheel.cachedMin == None
    {
      hide ViewOf, WheelModel.WellFormed;
      wheel.Remove(rid);
      var _ := resources.Remove(rid);
    }

    method AddTimer(deadline: nat, waker: Waker) returns (result: Option<nat>)
      requires Valid() && wheel.elapsed < deadline && pendingDeregister == None
      modifies this, wheel, resources
      ensures Valid() && State() == Added(old(State()), deadline, waker) && result == Fresh(old(State()))
    {
      hide ViewOf, WheelModel.WellFormed;
      AddedKeeps(State(), deadline, waker);
      result := AllocResourceId();
      if result.Some? {
        resources.Insert(result.value, TimerSlot(deadline, waker));
        wheel.Insert(result.value, deadline);
      }
    }

    method FlushPendingDeregister()
      requires Valid()
      modifies this, wheel, resources
      ensures Valid() && State() == Flushed(old(State())) && pendingDeregister == None
    {
      hide ViewOf, WheelModel.WellFormed;
      FlushedKeeps(State());
      if pendingDeregister.Some? {
        var rid := pendingDeregister.value.rid;
        pendingDeregister := None;
        Forget(rid);
      }
    }

    /** Swaps the waker of a timer slot; any other slot is left alone, and the result says so. */
    method ReplaceTimerWaker(rid: nat, waker: Waker) returns (replaced: bool)
      modifies resources
      ensures replaced == IsTimer(old(resources.View()), rid)
      ensures
        var slots := old(resources.View());
        resources.View() == if IsTimer(slots, rid) then slots[rid := TimerSlot(slots[rid].deadline, waker)] else slots
    {
      hide ViewOf;
      var slot := resources.Get(rid);
      replaced := slot.Some? && slot.value.TimerSlot?;
      if replaced {
        resources.Insert(rid, slot.value.(waker := waker));
      }
    }

    /** Registers a timer, taking over the cancelled one when its deadline is the same. */
    method RegisterTimer(deadline: nat, waker: Waker) returns (result: Option<nat>)
      requires Valid() && wheel.elapsed < deadline
      modifies this, wheel, resources
      ensures Valid() && State() == Registered(old(State()), deadline, waker)
      ensures result == RegisteredId(old(State()), deadline)
    {
      hide ViewOf, WheelModel.WellFormed, Consistent;
      RegisterIsInsert(State(), deadline, waker);
      if pendingDeregister.Some? {
        var held := pendingDeregister.value;
        var slot := resources.Get(held.rid);
        if held.deadline == deadline && slot.Some? {
          pendingDeregister := None;
          var _ := ReplaceTimerWaker(held.rid, waker);
          return Some(held.rid);
        }
      }
      FlushPendingDeregister();
      result := AddTimer(deadline, waker);
    }

    /** Cancels a timer, keeping a live one back for the next registration. */
    method DeregisterTimer(rid: nat)
      requires Valid() && (rid in resources.View() ==> resources.View()[rid].TimerSlot?)
      modifies this, wheel, resources
      ensures Valid() && State() == Deregistered(old(State()), rid)
    {
      hide ViewOf, WheelModel.WellFormed, Consistent;
      DeregisterIsRemove(State(), rid);
      FlushPendingDeregister();
      var deadline := wheel.GetDeadline(rid);
      if deadline.Some? {
        pendingDeregister := Some(Cancelled(rid, deadline.value));
      } else {
        Forget(rid);
      }
    }

    /** How callers register: a deadline that is not ahead of the clock is refused before the call. */
    method TryRegister(deadline: nat, waker: Waker)
      requires Valid()
      modifies this, wheel, resources
      ensures Valid()
      ensures State() == if old(State()).now < deadline then Registered(old(State()), deadline, waker) else old(State())
    {
      hide ViewOf, WheelModel.WellFormed, Consistent, Registered;
      if wheel.elapsed < deadline {
        var _ := RegisterTimer(deadline, waker);
      }
    }

    /** How callers cancel: with the id of a timer, never with that of an IO source. */
    method TryDeregister(rid: nat)
      requires Valid()
      modifies this, wheel, resources
      ensures Valid()
      ensures
        var t := old(State());
        State() == if rid in t.slots && t.slots[rid].IoSlot? then t else Deregistered(t, rid)
    {
      hide ViewOf, WheelModel.WellFormed, Consistent, Deregistered;
      var slot := resources.Get(rid);
      if !(slot.Some? && slot.value.IoSlot?) {
        DeregisterTimer(rid);
      }
    }

    /** An IO source takes an id of the same counter, and a slot if the OS accepts it. */
    method RegisterIo(osAccepts: bool) returns (result: Option<nat>)
      requires Valid()
      modifies this, resources
      ensures Valid() && State() == IoAdded(old(State()), osAccepts)
      ensures result == if osAccepts && old(nextResourceId) < MAX_ID then Some(old(nextResourceId)) else None
      ensures result.Some? ==> resources.View() == old(resources.View())[result.value := IoSlot(None, None)]
      ensures result == None ==> resources.View() == old(resources.View())
      ensures nextResourceId == old(nextResourceId) + if old(nextResourceId) < MAX_ID then 1 else 0
    {
      hide ViewOf, WheelModel.WellFormed, Consistent;
      IoKeeps(State(), osAccepts, 0);
      result := AllocResourceId();
      if result.Some? {
        if osAccepts {
          resources.Insert(result.value, IoSlot(None, None));
        } else {
          result := None;
        }
      }
    }

    method DeregisterIo(rid: nat)
      requires Valid() && rid in resources.View() && resources.View()[rid].IoSlot?
      modifies resources
      ensures Valid() && State() == IoRemoved(old(State()), rid)
      ensures resources.View() == old(resources.View()) - {rid}
    {
      hide ViewOf, WheelModel.WellFormed, Consistent;
      IoKeeps(State(), false, rid);
      var _ := resources.Remove(rid);
    }

    // ---- parking ----

    /** The park's one clock reading, clamped so that time never runs backwards. */
    method GetCurrentTime(reading: nat) returns (now: nat)
      ensures reading <= now && wheel.elapsed <= now
      ensures now == reading || now == wheel.elapsed
    {
      now := if reading >= wheel.elapsed then reading else wheel.elapsed;
    }

    /** How long the OS poll may sleep: until the earliest deadline, if that is nearer than the timeout given. */
    method EffectiveTimeout(timeout: Option<nat>, now: nat) returns (effective: Option<nat>)
      requires Valid()
      ensures SleepsLeast(wheel.deadlines, now, timeout, effective)
      ensures wheel.deadlines == map[] ==> effective == timeout
    {
      hide WheelModel.WellFormed, Consistent, ViewOf;
      var next := wheel.NextDeadline();
      if next.None? {
        return timeout;
      }
      if next.value <= now {
        return Some(0);
      }
      var left := next.value - now;
      effective := if timeout.None? || left < timeout.value then Some(left) else timeout;
    }

    /**
     Fires timers until the wheel has none left that is due: the woken ones are exactly
     those due, each once and with its own waker.
     */
    method WakeExpiredTimers(now: nat) returns (woken: seq<Wake>)
      requires Valid() && pendingDeregister == None && wheel.elapsed <= now
      modifies wheel, resources
      ensures Valid() && State() == Expired(old(State()), now)
      ensures Enumerates(woken, old(State()), now)
    {
      hide ViewOf, WheelModel.WellFormed, WheelModel.Tight, Enumerates, WheelMatchesSlots, Due;
      ghost var t0 := State();
      woken := [];
      DrainStart(t0, now);
      var done := false;
      while !done
        invariant wheel.Valid() && wheel.elapsed <= now && wheel.cachedMin == None
        invariant Draining(t0, wheel.deadlines, resources.View(), woken, now)
        invariant done ==>
          && wheel.pending == [] && wheel.elapsed == now
          && forall r :: r in wheel.deadlines ==> now < wheel.deadlines[r]
        decreases |wheel.deadlines|, !done
      {
        ghost var m, slots := wheel.deadlines, resources.View();
        var popped := wheel.TryPopExpired(now);
        if popped.None? {
          done := true;
        } else {
          DrainOne(t0, m, slots, woken, now, popped.value);
          var slot := resources.Get(popped.value);
          if slot.Some? && slot.value.TimerSlot? {
            woken := woken + [Wake(popped.value, slot.value.waker)];
            var _ := resources.Remove(popped.value);
          }
        }
      }
      DrainEnd(t0, wheel.deadlines, resources.View(), woken, now);
    }

    /** One park cycle; the OS poll itself is the environment's. */
    method Park(timeout: Option<nat>, reading: nat) returns (slept: Option<nat>, woken: seq<Wake>)
      requires Valid() && pendingDeregister == None
      modifies wheel, resources
      ensures Valid() && State() == Expired(old(State()), Clock(old(State()), reading))
      ensures Enumerates(woken, old(State()), Clock(old(State()), reading))
      ensures SleepsLeast(old(State()).wheel, Clock(old(State()), reading), timeout, slept)
      ensures old(State()).wheel == map[] ==> slept == timeout
    {
      hide ViewOf, WheelModel.WellFormed, Consistent, Enumerates, Expired, SleepsLeast;
      var now := GetCurrentTime(reading);
      slept := EffectiveTimeout(timeout, now);
      woken := WakeExpiredTimers(now);
    }
  }

  // ---- the drain loop ----

  /** Part of the way through a drain: what was woken is gone from wheel and slab, no more. */
  ghost predicate Draining(t0: Reactive, m: Timers, slots: map<nat, Slot>, woken: seq<Wake>, now: nat)
  {
    && WheelMatchesSlots(m, slots)
    && Left(t0, m, slots)
    && Woken(t0, m, woken, now)
  }

  ghost predicate Left(t0: Reactive, m: Timers, slots: map<nat, Slot>)
  {
    && (forall r :: r in m ==> r in t0.wheel && m[r] == t0.wheel[r])
    && (forall r :: r in slots ==> r in t0.slots && slots[r] == t0.slots[r])
    && (forall r :: r in t0.slots && r !in slots ==> r in t0.wheel && r !in m)
  }

  ghost predicate Woken(t0: Reactive, m: Timers, woken: seq<Wake>, now: nat)
  {
    && (forall r :: r in t0.wheel && r !in m ==> r in Due(t0.wheel, now) && WokenOnce(woken, r))
    && (forall i, j :: 0 <= i < j < |woken| ==> woken[i].rid != woken[j].rid)
    && (forall i :: 0 <= i < |woken| ==> WokenFrom(t0, woken[i], now) && woken[i].rid !in m)
  }

  ghost predicate WokenOnce(woken: seq<Wake>, r: nat)
  {
    exists i :: 0 <= i < |woken| && woken[i].rid == r
  }

  ghost predicate WokenFrom(t0: Reactive, w: Wake, now: nat)
  {
    w.rid in Due(t0.wheel, now) && w.rid in t0.slots && t0.slots[w.rid] == TimerSlot(t0.wheel[w.rid], w.waker)
  }

  lemma DrainStart(t0: Reactive, now: nat)
    requires Consistent(t0)
    ensures Draining(t0, t0.wheel, t0.slots, [], now)
  {
  }

  lemma DrainOne(t0: Reactive, m: Timers, slots: map<nat, Slot>, woken: seq<Wake>, now: nat, r: nat)
    requires Draining(t0, m, slots, woken, now) && r in m && m[r] <= now
    ensures r in slots && slots[r].TimerSlot? && |m - {r}| < |m|
    ensures Draining(t0, m - {r}, slots - {r}, woken + [Wake(r, slots[r].waker)], now)
  {
    hide Woken;
    assert |(m - {r}).Keys| == |m.Keys| - 1;
    assert WokenFrom(t0, Wake(r, slots[r].waker), now);
    WokenNext(t0, m, woken, now, Wake(r, slots[r].waker));
  }

  lemma WokenNext(t0: Reactive, m: Timers, woken: seq<Wake>, now: nat, w: Wake)
    requires Woken(t0, m, woken, now) && w.rid in m && WokenFrom(t0, w, now)
    ensures Woken(t0, m - {w.rid}, woken + [w], now)
  {
    hide WokenFrom;
    var woken' := woken + [w];
    forall x | x in t0.wheel && x !in m - {w.rid}
      ensures x in Due(t0.wheel, now) && WokenOnce(woken', x)
    {
      if x == w.rid {
        assert w.rid in Due(t0.wheel, now) by { WokenIsDue(t0, w, now); }
        assert woken'[|woken|].rid == x;
      } else {
        var i :| 0 <= i < |woken| && woken[i].rid == x;
        assert woken'[i].rid == x;
      }
    }
  }

  lemma WokenIsDue(t0: Reactive, w: Wake, now: nat)
    requires WokenFrom(t0, w, now)
    ensures w.rid in Due(t0.wheel, now)
  {
  }

  lemma DrainEnd(t0: Reactive, m: Timers, slots: map<nat, Slot>, woken: seq<Wake>, now: nat)
    requires Draining(t0, m, slots, woken, now) && Consistent(t0)
    requires forall r :: r in m ==> now < m[r]
    ensures m == Expired(t0, now).wheel && slots == Expired(t0, now).slots
    ensures Enumerates(woken, t0, now)
    ensures Consistent(Expired(t0, now).(pending := None))
  {
    assert forall r :: r in t0.wheel ==> (r in m <==> r !in Due(t0.wheel, now));
    assert m == t0.wheel - Due(t0.wheel, now);
    assert slots == t0.slots - Due(t0.wheel, now);
    forall r | r in Due(t0.wheel, now)
      ensures exists i :: 0 <= i < |woken| && woken[i].rid == r
    {
      assert WokenOnce(woken, r);
    }
  }
}
