/**
 Slot operations of the timer wheel: appending, swap-removing and draining keep slots,
 back-pointers and counters consistent.
 */
module WheelSlots {
  import opened Ring
  import opened Seqs
  import opened WheelModel

  // ---- appending ----

  /** `r` appended to slot `s` of level `l`. */
  ghost function Pushed(w: Slots, l: nat, s: nat, r: nat): Slots
    requires Shape(w.levels) && |w.counts| == LEVELS && l < LEVELS && s < SLOTS
  {
    Slots(SetSlot(w.levels, l, s, w.levels[l][s] + [r]),
          w.counts[l := w.counts[l] + 1],
          w.positions[r := Pos(l, s, |w.levels[l][s]|)])
  }

  /** `r` appended to the slot its deadline belongs to at clock `clock`. */
  ghost function Inserted(w: Slots, r: nat, d: nat, clock: nat): Slots
    requires Shape(w.levels) && |w.counts| == LEVELS && clock <= d
  {
    Pushed(w, LevelOf(d - clock), SlotOf(d, LevelOf(d - clock)), r)
  }

  lemma PushPointsBack(
      levels: Levels, positions: map<nat, Pos>, loose: seq<nat>, loose': seq<nat>, l: nat, s: nat, r: nat)
    requires Shape(levels) && PointsBack(levels, positions, loose) && l < LEVELS && s < SLOTS
    requires r !in positions || r in loose
    requires r !in loose' && forall x :: x in loose' ==> x in loose
    ensures PointsBack(SetSlot(levels, l, s, levels[l][s] + [r]), positions[r := Pos(l, s, |levels[l][s]|)], loose')
  {
    var levels' := SetSlot(levels, l, s, levels[l][s] + [r]);
    forall l', s', i | 0 <= l' < LEVELS && 0 <= s' < SLOTS && 0 <= i < |levels'[l'][s']|
      ensures levels'[l'][s'][i] == r || (i < |levels[l'][s']| && levels'[l'][s'][i] == levels[l'][s'][i])
    {
    }
  }

  lemma PushPoints(levels: Levels, positions: map<nat, Pos>, loose: seq<nat>, loose': seq<nat>, l: nat, s: nat, r: nat)
    requires Shape(levels) && Points(levels, positions, loose) && l < LEVELS && s < SLOTS
    requires forall x :: x in loose && x != r ==> x in loose'
    ensures Points(SetSlot(levels, l, s, levels[l][s] + [r]), positions[r := Pos(l, s, |levels[l][s]|)], loose')
  {
    var levels', positions' := SetSlot(levels, l, s, levels[l][s] + [r]), positions[r := Pos(l, s, |levels[l][s]|)];
    forall x | x in positions' && x !in loose'
      ensures
        var p := positions'[x];
        p.level < LEVELS && p.slot < SLOTS && p.idx < |levels'[p.level][p.slot]| && levels'[p.level][p.slot][p.idx] == x
    {
      if x != r {
        assert x in positions && x !in loose;
      }
    }
  }

  /** The ids still loose after `r` has its place. */
  lemma PushLoose(positions: map<nat, Pos>, loose: seq<nat>, loose': seq<nat>, r: nat, p: Pos)
    requires Distinct(loose) && forall x :: x in loose ==> x in positions
    requires (loose != [] && r == loose[0] && loose' == loose[1..]) || (r !in positions && loose' == loose)
    ensures Distinct(loose') && r !in loose' && forall x :: x in loose' ==> x in loose && x in positions[r := p]
    ensures forall x :: x in loose && x != r ==> x in loose'
  {
    if loose' != loose {
      assert loose == [r] + loose';
    }
  }

  lemma PushSize(positions: map<nat, Pos>, r: nat, p: Pos)
    ensures |positions[r := p]| == |positions| + if r in positions then 0 else 1
  {
    assert positions[r := p].Keys == positions.Keys + {r};
    assert |positions[r := p].Keys| == |positions.Keys + {r}|;
  }

  /** `r` is either the first loose id or has no position yet. */
  lemma PushedKeeps(w: Slots, loose: seq<nat>, loose': seq<nat>, l: nat, s: nat, r: nat)
    requires SlotsOk(w, loose) && l < LEVELS && s < SLOTS
    requires (loose != [] && r == loose[0] && loose' == loose[1..]) || (r !in w.positions && loose' == loose)
    ensures SlotsOk(Pushed(w, l, s, r), loose')
  {
    hide Points, PointsBack, SlotsLen, Distinct;
    PushLoose(w.positions, loose, loose', r, Pos(l, s, |w.levels[l][s]|));
    PushSize(w.positions, r, Pos(l, s, |w.levels[l][s]|));
    PushPoints(w.levels, w.positions, loose, loose', l, s, r);
    PushPointsBack(w.levels, w.positions, loose, loose', l, s, r);
    CountedSetSlot(w.levels, w.counts, |w.positions| - |loose|, l, s, w.levels[l][s] + [r]);
    assert |w.levels[l][s] + [r]| == |w.levels[l][s]| + 1;
  }

  // ---- swap-remove ----

  /** A slot without its entry `i`, the last entry moved into the gap. */
  function SwapRemoved(v: seq<nat>, i: nat): (r: seq<nat>)
    requires i < |v|
    ensures |r| == |v| - 1
  {
    if i < |v| - 1 then v[..|v| - 1][i := v[|v| - 1]] else v[..|v| - 1]
  }

  ghost function PositionsWithout(w: Slots, r: nat): map<nat, Pos>
    requires Shape(w.levels) && Points(w.levels, w.positions, []) && r in w.positions
  {
    var p := w.positions[r];
    var v := w.levels[p.level][p.slot];
    if p.idx < |v| - 1 then (w.positions - {r})[v[|v| - 1] := p] else w.positions - {r}
  }

  /** `r` taken out of its slot; nothing happens to an id without a position. */
  ghost function Removed(w: Slots, r: nat): Slots
    requires SlotsOk(w, [])
  {
    if r !in w.positions then w
    else
      var p := w.positions[r];
      SlotCounted(w.levels[p.level], p.slot);
      Slots(SetSlot(w.levels, p.level, p.slot, SwapRemoved(w.levels[p.level][p.slot], p.idx)),
            w.counts[p.level := w.counts[p.level] - 1],
            PositionsWithout(w, r))
  }

  lemma WithoutKeys(w: Slots, r: nat)
    requires Shape(w.levels) && Points(w.levels, w.positions, []) && PointsBack(w.levels, w.positions, [])
    requires r in w.positions
    ensures PositionsWithout(w, r).Keys == w.positions.Keys - {r}
    ensures forall x :: x in PositionsWithout(w, r) ==>
      PositionsWithout(w, r)[x].level == w.positions[x].level && PositionsWithout(w, r)[x].slot == w.positions[x].slot
  {
    var p := w.positions[r];
    var v := w.levels[p.level][p.slot];
    var last := v[|v| - 1];
    assert last in w.positions && w.positions[last] == Pos(p.level, p.slot, |v| - 1);
  }

  lemma OneFewer(m: map<nat, Pos>, m': map<nat, Pos>, r: nat)
    requires r in m && m'.Keys == m.Keys - {r}
    ensures |m'| == |m| - 1
  {
    assert |m'.Keys| == |m.Keys| - 1;
  }

  lemma WithoutPoints(w: Slots, r: nat)
    requires Shape(w.levels) && Points(w.levels, w.positions, []) && PointsBack(w.levels, w.positions, [])
    requires r in w.positions
    ensures
      var p := w.positions[r];
      var v := SwapRemoved(w.levels[p.level][p.slot], p.idx);
      Points(SetSlot(w.levels, p.level, p.slot, v), PositionsWithout(w, r), [])
  {
    var p := w.positions[r];
    var levels' := SetSlot(w.levels, p.level, p.slot, SwapRemoved(w.levels[p.level][p.slot], p.idx));
    forall x | x in PositionsWithout(w, r)
      ensures var q := PositionsWithout(w, r)[x];
        q.level < LEVELS && q.slot < SLOTS && q.idx < |levels'[q.level][q.slot]| && levels'[q.level][q.slot][q.idx] == x
    {
      WithoutPointsAt(w, r, x);
    }
  }

  lemma WithoutPointsAt(w: Slots, r: nat, x: nat)
    requires Shape(w.levels) && Points(w.levels, w.positions, []) && PointsBack(w.levels, w.positions, [])
    requires r in w.positions && x in PositionsWithout(w, r)
    ensures
      var p, q := w.positions[r], PositionsWithout(w, r)[x];
      && q.level < LEVELS && q.slot < SLOTS
      && (if (q.level, q.slot) == (p.level, p.slot)
          then q.idx < |SwapRemoved(w.levels[p.level][p.slot], p.idx)|
               && SwapRemoved(w.levels[p.level][p.slot], p.idx)[q.idx] == x
          else q.idx < |w.levels[q.level][q.slot]| && w.levels[q.level][q.slot][q.idx] == x)
  {
    hide PointsBack;
    var p := w.positions[r];
    var v := w.levels[p.level][p.slot];
    SlotEnd(w, p.level, p.slot);
    if x != v[|v| - 1] {
      assert PositionsWithout(w, r)[x] == w.positions[x];
      OtherStays(w, r, x);
    }
  }

  lemma SlotEnd(w: Slots, l: nat, s: nat)
    requires Shape(w.levels) && PointsBack(w.levels, w.positions, []) && l < LEVELS && s < SLOTS && w.levels[l][s] != []
    ensures
      var v := w.levels[l][s];
      v[|v| - 1] in w.positions && w.positions[v[|v| - 1]] == Pos(l, s, |v| - 1)
  {
  }

  /** An id that is neither removed nor moved into the gap is found where it was. */
  lemma OtherStays(w: Slots, r: nat, x: nat)
    requires Shape(w.levels) && Points(w.levels, w.positions, []) && r in w.positions && x in w.positions && x != r
    requires
      var v := w.levels[w.positions[r].level][w.positions[r].slot];
      x != v[|v| - 1]
    ensures
      var p, q := w.positions[r], w.positions[x];
      && q.level < LEVELS && q.slot < SLOTS
      && (if (q.level, q.slot) == (p.level, p.slot)
          then q.idx < |SwapRemoved(w.levels[p.level][p.slot], p.idx)|
               && SwapRemoved(w.levels[p.level][p.slot], p.idx)[q.idx] == x
          else q.idx < |w.levels[q.level][q.slot]| && w.levels[q.level][q.slot][q.idx] == x)
  {
    var p, q := w.positions[r], w.positions[x];
    assert w.levels[q.level][q.slot][q.idx] == x && w.levels[p.level][p.slot][p.idx] == r;
  }

  lemma WithoutPointsBack(w: Slots, r: nat)
    requires Shape(w.levels) && Points(w.levels, w.positions, []) && PointsBack(w.levels, w.positions, [])
    requires r in w.positions
    ensures
      var p := w.positions[r];
      var v := SwapRemoved(w.levels[p.level][p.slot], p.idx);
      PointsBack(SetSlot(w.levels, p.level, p.slot, v), PositionsWithout(w, r), [])
  {
    var p := w.positions[r];
    var v := w.levels[p.level][p.slot];
    var last := v[|v| - 1];
    assert last in w.positions && w.positions[last] == Pos(p.level, p.slot, |v| - 1);
    var levels' := SetSlot(w.levels, p.level, p.slot, SwapRemoved(v, p.idx));
    forall l', s', i | 0 <= l' < LEVELS && 0 <= s' < SLOTS && 0 <= i < |levels'[l'][s']|
      ensures
        && levels'[l'][s'][i] in PositionsWithout(w, r)
        && PositionsWithout(w, r)[levels'[l'][s'][i]] == Pos(l', s', i)
    {
      if (l', s') == (p.level, p.slot) && i == p.idx {
      } else {
        assert levels'[l'][s'][i] == w.levels[l'][s'][i];
      }
    }
  }

  lemma RemovedKeeps(w: Slots, r: nat)
    requires SlotsOk(w, [])
    ensures SlotsOk(Removed(w, r), [])
  {
    if r in w.positions {
      var p := w.positions[r];
      WithoutKeys(w, r);
      OneFewer(w.positions, PositionsWithout(w, r), r);
      WithoutPoints(w, r);
      WithoutPointsBack(w, r);
      CountedSetSlot(w.levels, w.counts, |w.positions|, p.level, p.slot, SwapRemoved(w.levels[p.level][p.slot], p.idx));
    }
  }

  /** What taking `r` out of its slot amounts to, spelled out. */
  lemma RemovalPlan(w: Slots, r: nat)
    requires SlotsOk(w, [])
    ensures Shape(w.levels) && |w.levels| == |w.counts| == LEVELS && forall l :: 0 <= l < LEVELS ==>
      |w.levels[l]| == SLOTS
    ensures r !in w.positions ==> Removed(w, r) == w
    ensures r in w.positions ==>
      var p := w.positions[r];
      && p.level < LEVELS && p.slot < SLOTS && p.idx < |w.levels[p.level][p.slot]| && 0 < w.counts[p.level]
      && Removed(w, r) == Slots(
           SetSlot(w.levels, p.level, p.slot, SwapRemoved(w.levels[p.level][p.slot], p.idx)),
           w.counts[p.level := w.counts[p.level] - 1],
           if p.idx < |w.levels[p.level][p.slot]| - 1
           then (w.positions - {r})[w.levels[p.level][p.slot][|w.levels[p.level][p.slot]| - 1] := p]
           else w.positions - {r})
  {
    hide SlotsLen, PointsBack, Distinct;
    if r in w.positions {
      SlotCounted(w.levels[w.positions[r].level], w.positions[r].slot);
    }
  }

  lemma RemovedPositions(w: Slots, r: nat)
    requires SlotsOk(w, [])
    ensures Removed(w, r).positions.Keys == w.positions.Keys - {r}
    ensures forall x :: x in Removed(w, r).positions ==>
      && Removed(w, r).positions[x].level == w.positions[x].level
      && Removed(w, r).positions[x].slot == w.positions[x].slot
  {
    if r in w.positions {
      WithoutKeys(w, r);
    }
  }

  // ---- draining ----

  ghost function Taken(w: Slots, l: nat, s: nat): Slots
    requires SlotsOk(w, []) && l < LEVELS && s < SLOTS
  {
    SlotCounted(w.levels[l], s);
    w.(levels := SetSlot(w.levels, l, s, []), counts := w.counts[l := w.counts[l] - |w.levels[l][s]|])
  }

  lemma TakePointsBack(levels: Levels, positions: map<nat, Pos>, l: nat, s: nat)
    requires Shape(levels) && PointsBack(levels, positions, []) && l < LEVELS && s < SLOTS
    ensures PointsBack(SetSlot(levels, l, s, []), positions, levels[l][s])
  {
    var levels' := SetSlot(levels, l, s, []);
    forall l', s', i | 0 <= l' < LEVELS && 0 <= s' < SLOTS && 0 <= i < |levels'[l'][s']|
      ensures
        && levels'[l'][s'][i] in positions
        && levels'[l'][s'][i] !in levels[l][s]
        && positions[levels'[l'][s'][i]] == Pos(l', s', i)
    {
      assert levels'[l'][s'][i] == levels[l'][s'][i];
    }
  }

  lemma TakenKeeps(w: Slots, l: nat, s: nat)
    requires SlotsOk(w, []) && l < LEVELS && s < SLOTS
    ensures SlotsOk(Taken(w, l, s), w.levels[l][s])
  {
    TakePointsBack(w.levels, w.positions, l, s);
    CountedSetSlot(w.levels, w.counts, |w.positions|, l, s, []);
    forall r | r in w.levels[l][s]
      ensures r in w.positions
    {
      var k :| 0 <= k < |w.levels[l][s]| && w.levels[l][s][k] == r;
      assert w.levels[l][s][k] in w.positions;
    }
  }

  /** A drained id that is due loses its position. */
  lemma DroppedKeeps(w: Slots, loose: seq<nat>)
    requires SlotsOk(w, loose) && loose != []
    ensures SlotsOk(w.(positions := w.positions - {loose[0]}), loose[1..])
  {
    assert loose == [loose[0]] + loose[1..];
    OneFewer(w.positions, w.positions - {loose[0]}, loose[0]);
  }
}
