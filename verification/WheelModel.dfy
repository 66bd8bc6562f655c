/**
 The timer wheel as a value: its well-formedness, one predicate for each part of the state.
 The class in TimerWheel.dfy refines these definitions.
 */
module WheelModel {
  import opened Options
  import opened Ring
  import opened Seqs

  datatype Pos = Pos(level: nat, slot: nat, idx: nat)

  /** The rings, their per-level counters and the back-pointers into them. */
  datatype Slots = Slots(levels: seq<seq<seq<nat>>>, counts: seq<nat>, positions: map<nat, Pos>)

  /** `moves` and `born` are bookkeeping: re-placements since insertion, and level at insertion. */
  datatype Wheel = Wheel(
    slots: Slots,
    elapsed: nat,
    pending: seq<nat>,
    cachedMin: Option<nat>,
    deadlines: map<nat, nat>,
    moves: map<nat, nat>,
    born: map<nat, nat>)

  type Levels = seq<seq<seq<nat>>>

  // ---- rows of slots ----

  ghost predicate Shape(levels: Levels)
  {
    |levels| == LEVELS && forall l :: 0 <= l < LEVELS ==> |levels[l]| == SLOTS
  }

  ghost function SlotsLen(row: seq<seq<nat>>): nat
  {
    if row == [] then 0 else SlotsLen(row[..|row| - 1]) + |row[|row| - 1]|
  }

  lemma {:induction false} SlotsLenUpdate(row: seq<seq<nat>>, s: nat, v: seq<nat>)
    requires s < |row|
    ensures SlotsLen(row[s := v]) == SlotsLen(row) - |row[s]| + |v|
  {
    var m := |row| - 1;
    if s == m {
      assert row[s := v][..m] == row[..m];
    } else {
      assert row[s := v][..m] == row[..m][s := v];
      SlotsLenUpdate(row[..m], s, v);
    }
  }

  lemma {:induction false} SlotsLenZero(row: seq<seq<nat>>)
    ensures SlotsLen(row) == 0 <==> forall s :: 0 <= s < |row| ==> row[s] == []
  {
    if row != [] {
      var m := |row| - 1;
      SlotsLenZero(row[..m]);
      assert forall s :: 0 <= s < m ==> row[..m][s] == row[s];
    }
  }

  lemma SlotCounted(row: seq<seq<nat>>, s: nat)
    requires s < |row|
    ensures |row[s]| <= SlotsLen(row)
  {
    SlotsLenUpdate(row, s, []);
  }

  ghost function SetSlot(levels: Levels, l: nat, s: nat, v: seq<nat>): (r: Levels)
    requires Shape(levels) && l < LEVELS && s < SLOTS
    ensures Shape(r)
    ensures r[l][s] == v
    ensures forall l', s' :: 0 <= l' < LEVELS && 0 <= s' < SLOTS && (l', s') != (l, s) ==> r[l'][s'] == levels[l'][s']
  {
    levels[l := levels[l][s := v]]
  }

  /** Each counter is the occupancy of its level, and together they sum to `total`. */
  ghost predicate Counted(levels: Levels, counts: seq<nat>, total: int)
    requires Shape(levels)
  {
    && |counts| == LEVELS
    && (forall l :: 0 <= l < LEVELS ==> counts[l] == SlotsLen(levels[l]))
    && counts[0] + counts[1] + counts[2] + counts[3] == total
  }

  lemma CountedSetSlot(levels: Levels, counts: seq<nat>, total: int, l: nat, s: nat, v: seq<nat>)
    requires Shape(levels) && l < LEVELS && s < SLOTS && Counted(levels, counts, total)
    ensures |levels[l][s]| <= counts[l]
    ensures
      var more := |v| - |levels[l][s]|;
      Counted(SetSlot(levels, l, s, v), counts[l := counts[l] + more], total + more)
  {
    SlotCounted(levels[l], s);
    SlotsLenUpdate(levels[l], s, v);
  }

  // ---- back-pointers ----

  /** Every position outside `loose` points at its own id. */
  ghost predicate Points(levels: Levels, positions: map<nat, Pos>, loose: seq<nat>)
    requires Shape(levels)
  {
    forall r :: r in positions && r !in loose ==>
      && positions[r].level < LEVELS && positions[r].slot < SLOTS
      && positions[r].idx < |levels[positions[r].level][positions[r].slot]|
      && levels[positions[r].level][positions[r].slot][positions[r].idx] == r
  }

  /** Every slot entry is an id whose position names that entry. */
  ghost predicate PointsBack(levels: Levels, positions: map<nat, Pos>, loose: seq<nat>)
    requires Shape(levels)
  {
    forall l, s, i :: 0 <= l < LEVELS && 0 <= s < SLOTS && 0 <= i < |levels[l][s]| ==>
      && levels[l][s][i] in positions
      && levels[l][s][i] !in loose
      && positions[levels[l][s][i]] == Pos(l, s, i)
  }

  /**
   Slots and positions are mutually inverse, except for the ids in `loose`, which were
   taken out of their slot and not placed again yet.
   */
  ghost predicate Linked(levels: Levels, positions: map<nat, Pos>, loose: seq<nat>)
    requires Shape(levels)
  {
    && Points(levels, positions, loose)
    && PointsBack(levels, positions, loose)
    && (forall r :: r in loose ==> r in positions)
    && Distinct(loose)
  }

  ghost predicate SlotsOk(s: Slots, loose: seq<nat>)
  {
    && Shape(s.levels)
    && Linked(s.levels, s.positions, loose)
    && Counted(s.levels, s.counts, |s.positions| - |loose|)
  }

  // ---- the other parts of the state ----

  /** Every position fits its timer's deadline when the clock shows `clock`. */
  ghost predicate AllPlaced(positions: map<nat, Pos>, deadlines: map<nat, nat>, clock: nat)
  {
    forall r :: r in positions ==>
      && r in deadlines
      && positions[r].level < LEVELS
      && Placed(positions[r].level, positions[r].slot, deadlines[r], clock)
  }

  /** Every live timer is in the wheel or pending, and what is pending is due. */
  ghost predicate Covered(deadlines: map<nat, nat>, positions: map<nat, Pos>, pending: seq<nat>, elapsed: nat)
  {
    && (forall r :: r in deadlines ==> r in positions || r in pending)
    && (forall r :: r in pending ==> r !in positions)
    && (forall r :: r in pending && r in deadlines ==> deadlines[r] <= elapsed)
  }

  ghost predicate MinValid(cached: Option<nat>, deadlines: map<nat, nat>)
  {
    cached.Some? ==>
      && (exists r :: r in deadlines && deadlines[r] == cached.value)
      && (forall r :: r in deadlines ==> cached.value <= deadlines[r])
  }

  /** A timer inserted on level 0, 1 or 2 pays for each re-placement with a level. */
  ghost predicate MovesBounded(positions: map<nat, Pos>, moves: map<nat, nat>, born: map<nat, nat>)
  {
    forall r :: r in positions ==>
      && r in moves && r in born
      && (born[r] <= 2 ==> moves[r] + positions[r].level <= born[r])
  }

  ghost predicate WellFormed(w: Wheel)
  {
    && SlotsOk(w.slots, [])
    && AllPlaced(w.slots.positions, w.deadlines, w.elapsed)
    && Covered(w.deadlines, w.slots.positions, w.pending, w.elapsed)
    && MinValid(w.cachedMin, w.deadlines)
    && MovesBounded(w.slots.positions, w.moves, w.born)
  }

  /** No stale or repeated id waits in `pending`. */
  ghost predicate Tight(w: Wheel)
  {
    Distinct(w.pending) && forall r :: r in w.pending ==> r in w.deadlines
  }
}
