/**
 The timer side of the reactor as a value: the wheel's map, the resource slots, the one
 cancellation kept back for reuse, and the id counter.
 */
module ReactorModel {
  import opened Options
  import opened TimerRuns
  import opened WakeModel

  const MAX_ID: nat := 0xFFFF_FFFF_FFFF_FFFF

  datatype Slot =
    | TimerSlot(deadline: nat, waker: Waker)
    | IoSlot(readWaker: Option<Waker>, writeWaker: Option<Waker>)

  datatype Cancelled = Cancelled(rid: nat, deadline: nat)

  /** `now` is the clock of the last park, which is also the wheel's `elapsed`. */
  datatype Reactive = Reactive(
    wheel: Timers,
    slots: map<nat, Slot>,
    pending: Option<Cancelled>,
    next: nat,
    now: nat)

  datatype Wake = Wake(rid: nat, waker: Waker)

  /** Whether `rid` names a timer slot. */
  predicate IsTimer(slots: map<nat, Slot>, rid: nat)
  {
    rid in slots && slots[rid].TimerSlot?
  }

  /** Wheel and slab hold the same timers with the same deadlines. */
  ghost predicate WheelMatchesSlots(wheel: Timers, slots: map<nat, Slot>)
  {
    && (forall r :: r in wheel ==> r in slots && slots[r].TimerSlot? && slots[r].deadline == wheel[r])
    && (forall r :: r in slots && slots[r].TimerSlot? ==> r in wheel)
  }

  ghost predicate Consistent(t: Reactive)
  {
    && WheelMatchesSlots(t.wheel, t.slots)
    && (forall r :: r in t.slots ==> 1 <= r < t.next)
    && (forall r :: r in t.wheel ==> t.now < t.wheel[r])
    && (t.pending.Some? ==> t.pending.value.rid in t.wheel && t.wheel[t.pending.value.rid] == t.pending.value.deadline)
    && 1 <= t.next <= MAX_ID
  }

  const INITIAL: Reactive := Reactive(map[], map[], None, 1, 0)

  // ---- the operations ----

  function Forgotten(t: Reactive, rid: nat): Reactive
  {
    t.(wheel := t.wheel - {rid}, slots := t.slots - {rid})
  }

  /** `flush_pending_deregister` */
  function Flushed(t: Reactive): Reactive
  {
    if t.pending.Some? then Forgotten(t, t.pending.value.rid).(pending := None) else t
  }

  /** `Reactor::register_timer`: a fresh id, or none when the ids ran out. */
  function Added(t: Reactive, d: nat, w: Waker): Reactive
  {
    if t.next >= MAX_ID then t
    else t.(wheel := t.wheel[t.next := d], slots := t.slots[t.next := TimerSlot(d, w)], next := t.next + 1)
  }

  function Fresh(t: Reactive): Option<nat>
  {
    if t.next >= MAX_ID then None else Some(t.next)
  }

  /** Whether a registration with deadline `d` takes over the cancelled timer. */
  predicate Reuses(t: Reactive, d: nat)
  {
    t.pending.Some? && t.pending.value.deadline == d && t.pending.value.rid in t.slots
  }

  /** `ReactorHandle::register_timer` */
  function Registered(t: Reactive, d: nat, w: Waker): Reactive
  {
    if Reuses(t, d) then
      var rid := t.pending.value.rid;
      t.(pending := None,
         slots := if IsTimer(t.slots, rid) then t.slots[rid := TimerSlot(t.slots[rid].deadline, w)] else t.slots)
    else Added(Flushed(t), d, w)
  }

  function RegisteredId(t: Reactive, d: nat): Option<nat>
  {
    if Reuses(t, d) then Some(t.pending.value.rid) else Fresh(t)
  }

  /** `ReactorHandle::deregister_timer` */
  function Deregistered(t: Reactive, rid: nat): Reactive
  {
    var f := Flushed(t);
    if rid in f.wheel then f.(pending := Some(Cancelled(rid, f.wheel[rid]))) else Forgotten(f, rid)
  }

  /** The clock a park works with: the reading, never behind the last one. */
  function Clock(t: Reactive, reading: nat): nat
  {
    if reading >= t.now then reading else t.now
  }

  /** How far a deadline is ahead of the clock; nothing if it is due. */
  function Distance(now: nat, deadline: nat): nat
  {
    if deadline <= now then 0 else deadline - now
  }

  /** The OS poll's timeout is the least of the timeout asked for and the timers' distances. */
  ghost predicate SleepsLeast(wheel: Timers, now: nat, timeout: Option<nat>, slept: Option<nat>)
  {
    && (timeout.Some? ==> slept.Some? && slept.value <= timeout.value)
    && (forall r :: r in wheel ==> slept.Some? && slept.value <= Distance(now, wheel[r]))
    && (slept == timeout || (slept.Some? && exists r :: r in wheel && slept.value == Distance(now, wheel[r])))
  }

  function Expired(t: Reactive, now: nat): Reactive
  {
    t.(wheel := t.wheel - Due(t.wheel, now), slots := t.slots - Due(t.wheel, now), now := now)
  }

  /** Flush, then one park that reads the clock once and fires what is due. */
  function Parked(t: Reactive, reading: nat): Reactive
  {
    Expired(Flushed(t), Clock(t, reading))
  }

  /** The woken ids are exactly those due, each once, each with its slot's waker. */
  ghost predicate Enumerates(woken: seq<Wake>, t: Reactive, now: nat)
  {
    && (forall i, j :: 0 <= i < j < |woken| ==> woken[i].rid != woken[j].rid)
    && (forall i :: 0 <= i < |woken| ==> woken[i].rid in Due(t.wheel, now))
    && (forall i :: 0 <= i < |woken| ==>
         && woken[i].rid in t.slots
         && t.slots[woken[i].rid] == TimerSlot(t.wheel[woken[i].rid], woken[i].waker))
    && (forall r :: r in Due(t.wheel, now) ==> exists i :: 0 <= i < |woken| && woken[i].rid == r)
  }

  /** An IO registration takes an id from the same counter. */
  function IoAdded(t: Reactive, osAccepts: bool): Reactive
  {
    if t.next >= MAX_ID then t
    else t.(next := t.next + 1, slots := if osAccepts then t.slots[t.next := IoSlot(None, None)] else t.slots)
  }

  function IoRemoved(t: Reactive, rid: nat): Reactive
  {
    t.(slots := t.slots - {rid})
  }

  // ---- what they mean ----

  /** The timers that are registered and not cancelled. */
  function Live(t: Reactive): Timers
  {
    if t.pending.Some? then t.wheel - {t.pending.value.rid} else t.wheel
  }

  lemma FlushedKeeps(t: Reactive)
    requires Consistent(t)
    ensures Consistent(Flushed(t))
    ensures Live(Flushed(t)) == Live(t) == Flushed(t).wheel
    ensures Flushed(t).next == t.next && Flushed(t).now == t.now && Flushed(t).pending == None
    ensures Flushed(t).slots == if t.pending.Some? then t.slots - {t.pending.value.rid} else t.slots
  {
  }

  /** With no deadline nearer than the timeout the poll sleeps for all of it; else until the earliest deadline. */
  lemma SleepsInFull(wheel: Timers, now: nat, timeout: nat, slept: nat)
    requires SleepsLeast(wheel, now, Some(timeout), Some(slept))
    ensures slept == timeout <==> forall r :: r in wheel ==> timeout <= Distance(now, wheel[r])
    ensures slept < timeout ==> exists r :: r in wheel && slept == Distance(now, wheel[r])
  {
  }

  /**
   Registering is inserting: the returned id is nobody else's, it gets the new deadline and
   waker, and no other live timer changes, whether the id is fresh or taken over.
   */
  lemma RegisterIsInsert(t: Reactive, d: nat, w: Waker)
    requires Consistent(t) && t.now < d
    ensures Consistent(Registered(t, d, w)) && Registered(t, d, w).now == t.now
    ensures
      var rid := RegisteredId(t, d);
      if rid.Some? then
        && rid.value !in Live(t)
        && Live(Registered(t, d, w)) == Live(t)[rid.value := d]
        && rid.value in Registered(t, d, w).slots
        && Registered(t, d, w).slots[rid.value] == TimerSlot(d, w)
      else Live(Registered(t, d, w)) == Live(t) && t.next == MAX_ID && !Reuses(t, d)
    ensures forall r :: r in Live(t) ==>
      r in t.slots && r in Registered(t, d, w).slots && Registered(t, d, w).slots[r] == t.slots[r]
  {
    FlushedKeeps(t);
    AddedKeeps(Flushed(t), d, w);
    if Reuses(t, d) {
      var rid := t.pending.value.rid;
      assert Live(Registered(t, d, w)) == t.wheel == Live(t)[rid := d];
    } else {
      assert t.next < MAX_ID ==> t.next !in Flushed(t).slots;
    }
  }

  /** Of the slots, IO sources' included, a registration touches the held one and the one it returns, no other. */
  lemma RegisterSparesSlots(t: Reactive, d: nat, w: Waker, r: nat)
    requires Consistent(t) && t.now < d && (t.pending.Some? ==> t.pending.value.rid != r)
    requires RegisteredId(t, d) != Some(r)
    ensures r in Registered(t, d, w).slots <==> r in t.slots
    ensures r in t.slots ==> Registered(t, d, w).slots[r] == t.slots[r]
  {
  }

  /** A cancellation touches the held slot and that of its own id, no other. */
  lemma DeregisterSparesSlots(t: Reactive, rid: nat, r: nat)
    requires Consistent(t) && (t.pending.Some? ==> t.pending.value.rid != r) && r != rid
    ensures r in Deregistered(t, rid).slots <==> r in t.slots
    ensures r in t.slots ==> Deregistered(t, rid).slots[r] == t.slots[r]
  {
  }

  lemma AddedKeeps(t: Reactive, d: nat, w: Waker)
    requires Consistent(t) && t.now < d && t.pending == None
    ensures Consistent(Added(t, d, w))
    ensures forall r :: r in t.slots ==> r in Added(t, d, w).slots && Added(t, d, w).slots[r] == t.slots[r]
  {
  }

  /** Deregistering is removing, also when the id is unknown, fired or already cancelled. */
  lemma DeregisterIsRemove(t: Reactive, rid: nat)
    requires Consistent(t) && (rid in t.slots ==> t.slots[rid].TimerSlot?)
    ensures Consistent(Deregistered(t, rid)) && Deregistered(t, rid).now == t.now
    ensures Live(Deregistered(t, rid)) == Live(t) - {rid}
    ensures forall r :: r in Live(t) && r != rid ==>
      r in Deregistered(t, rid).slots && r in t.slots && Deregistered(t, rid).slots[r] == t.slots[r]
  {
    FlushedKeeps(t);
  }

  /** After a park the wheel, the timer slots and the live timers are one and the same. */
  lemma ParkFiresLiveDue(t: Reactive, reading: nat)
    requires Consistent(t)
    ensures Consistent(Parked(t, reading))
    ensures
      var t', now := Parked(t, reading), Clock(t, reading);
      && t'.now == now && t.now <= now && reading <= now
      && Due(Flushed(t).wheel, now) == Due(Live(t), now)
      && Live(t') == t'.wheel == Live(t) - Due(Live(t), now)
      && t'.slots == Flushed(t).slots - Due(Live(t), now) && t'.next == t.next
  {
    FlushedKeeps(t);
  }

  lemma IoKeeps(t: Reactive, osAccepts: bool, rid: nat)
    requires Consistent(t)
    ensures Consistent(IoAdded(t, osAccepts)) && Live(IoAdded(t, osAccepts)) == Live(t)
    ensures !IsTimer(t.slots, rid) ==> Consistent(IoRemoved(t, rid)) && Live(IoRemoved(t, rid)) == Live(t)
  {
  }
}
