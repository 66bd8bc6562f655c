/**
 Insert, remove and fire as state changes of the timer wheel, and proofs that each keeps
 the wheel well formed.
 */
module WheelSteps {
  import opened Options
  import opened Ring
  import opened WheelModel
  import opened WheelSlots

  lemma SlotsOfWellFormed(w: Wheel)
    requires WellFormed(w)
    ensures SlotsOk(w.slots, []) && Shape(w.slots.levels) && |w.slots.counts| == LEVELS
  {
  }

  /** `p'` kept some positions of `p`, possibly at another index of the same slot. */
  ghost predicate Kept(p: map<nat, Pos>, p': map<nat, Pos>)
  {
    forall x :: x in p' ==> x in p && p'[x].level == p[x].level && p'[x].slot == p[x].slot
  }

  lemma PlacedInsert(p: map<nat, Pos>, p': map<nat, Pos>, deadlines: map<nat, nat>, r: nat, d: nat, e: nat, idx: nat)
    requires AllPlaced(p, deadlines, e) && Kept(p, p') && e < d
    ensures AllPlaced(p'[r := Pos(LevelOf(d - e), SlotOf(d, LevelOf(d - e)), idx)], deadlines[r := d], e)
  {
    PlaceFresh(d, e);
    var q := p'[r := Pos(LevelOf(d - e), SlotOf(d, LevelOf(d - e)), idx)];
    forall x | x in q && x != r
      ensures x in deadlines && q[x].level < LEVELS && Placed(q[x].level, q[x].slot, deadlines[x], e)
    {
      assert x in p;
    }
  }

  lemma PlacedRemove(p: map<nat, Pos>, p': map<nat, Pos>, deadlines: map<nat, nat>, r: nat, e: nat)
    requires AllPlaced(p, deadlines, e) && Kept(p, p') && r !in p'
    ensures AllPlaced(p', deadlines - {r}, e)
  {
    forall x | x in p'
      ensures x in deadlines && p'[x].level < LEVELS && Placed(p'[x].level, p'[x].slot, deadlines[x], e)
    {
      assert x in p;
    }
  }

  lemma MovesKept(p: map<nat, Pos>, p': map<nat, Pos>, moves: map<nat, nat>, born: map<nat, nat>)
    requires MovesBounded(p, moves, born) && Kept(p, p')
    ensures MovesBounded(p', moves, born)
  {
    forall x | x in p'
      ensures x in moves && x in born && (born[x] <= 2 ==> moves[x] + p'[x].level <= born[x])
    {
      assert x in p;
    }
  }

  // ---- the cached minimum ----

  /** `invalidate_min`: forget the cached minimum when `d` may have been it. */
  function Invalidated(cached: Option<nat>, d: nat): Option<nat>
  {
    if cached.Some? && d <= cached.value then None else cached
  }

  function Lowered(cached: Option<nat>, d: nat): Option<nat>
  {
    if cached.Some? && d < cached.value then Some(d) else cached
  }

  /** Dropping `r` after invalidation keeps the cached minimum valid. */
  lemma DropKeepsMin(cached: Option<nat>, deadlines: map<nat, nat>, r: nat)
    requires MinValid(cached, deadlines) && r in deadlines
    ensures MinValid(Invalidated(cached, deadlines[r]), deadlines - {r})
  {
    var c := Invalidated(cached, deadlines[r]);
    if c.Some? {
      var k :| k in deadlines && deadlines[k] == c.value;
      assert k in deadlines - {r} && (deadlines - {r})[k] == c.value;
    }
  }

  /** So does setting `r`, once its old deadline was invalidated and the new one merged in. */
  lemma SetKeepsMin(cached: Option<nat>, deadlines: map<nat, nat>, r: nat, d: nat)
    requires MinValid(cached, deadlines)
    ensures
      var c := if r in deadlines then Invalidated(cached, deadlines[r]) else cached;
      MinValid(Lowered(c, d), deadlines[r := d])
  {
    var c := if r in deadlines then Invalidated(cached, deadlines[r]) else cached;
    var after := deadlines[r := d];
    if c.Some? {
      var k :| k in deadlines && deadlines[k] == cached.value;
      assert after[k] == c.value;
      assert r in after && after[r] == d;
    }
  }

  // ---- insert ----

  ghost function AfterInsert(w: Wheel, r: nat, d: nat): Wheel
    requires WellFormed(w) && w.elapsed < d
  {
    RemovedKeeps(w.slots, r);
    var cached := if r in w.deadlines then Invalidated(w.cachedMin, w.deadlines[r]) else w.cachedMin;
    w.(slots := Inserted(Removed(w.slots, r), r, d, w.elapsed),
       deadlines := w.deadlines[r := d],
       cachedMin := Lowered(cached, d),
       moves := w.moves[r := 0],
       born := w.born[r := LevelOf(d - w.elapsed)])
  }

  lemma AfterInsertKeeps(w: Wheel, r: nat, d: nat)
    requires WellFormed(w) && w.pending == [] && w.elapsed < d
    ensures WellFormed(AfterInsert(w, r, d))
  {
    AfterInsertSlots(w, r, d);
    var p', q := AfterInsertPositions(w, r, d);
    PlacedInsert(w.slots.positions, p', w.deadlines, r, d, w.elapsed, q.idx);
    CoveredInsert(w.deadlines, w.slots.positions, p', w.elapsed, r, d, q);
    SetKeepsMin(w.cachedMin, w.deadlines, r, d);
    MovesKept(w.slots.positions, p', w.moves, w.born);
    MovesInsert(p', w.moves, w.born, r, q);
  }

  /** The insertion as the two slot operations it consists of. */
  lemma AfterInsertUnfold(w: Wheel, r: nat, d: nat)
    requires WellFormed(w) && w.elapsed < d
    ensures SlotsOk(w.slots, [])
    ensures Shape(Removed(w.slots, r).levels) && |Removed(w.slots, r).counts| == LEVELS
    ensures
      var cached := if r in w.deadlines then Invalidated(w.cachedMin, w.deadlines[r]) else w.cachedMin;
      AfterInsert(w, r, d) == Wheel(
        Inserted(Removed(w.slots, r), r, d, w.elapsed), w.elapsed, w.pending,
        if cached.Some? && d < cached.value then Some(d) else cached,
        w.deadlines[r := d], w.moves[r := 0], w.born[r := LevelOf(d - w.elapsed)])
  {
    hide Removed, Inserted, Linked, SlotsLen, AllPlaced, Covered, MinValid, MovesBounded;
    RemovedKeeps(w.slots, r);
  }

  lemma AfterInsertSlots(w: Wheel, r: nat, d: nat)
    requires WellFormed(w) && w.elapsed < d
    ensures SlotsOk(AfterInsert(w, r, d).slots, [])
  {
    RemovedKeeps(w.slots, r);
    RemovedPositions(w.slots, r);
    PushedKeeps(Removed(w.slots, r), [], [], LevelOf(d - w.elapsed), SlotOf(d, LevelOf(d - w.elapsed)), r);
  }

  lemma AfterInsertPositions(w: Wheel, r: nat, d: nat) returns (p': map<nat, Pos>, q: Pos)
    requires WellFormed(w) && w.elapsed < d
    ensures AfterInsert(w, r, d).slots.positions == p'[r := q]
    ensures Kept(w.slots.positions, p') && p'.Keys == w.slots.positions.Keys - {r}
    ensures q.level == LevelOf(d - w.elapsed) && q.slot == SlotOf(d, q.level)
  {
    RemovedPositions(w.slots, r);
    RemovedKeeps(w.slots, r);
    p' := Removed(w.slots, r).positions;
    q := AfterInsert(w, r, d).slots.positions[r];
  }

  lemma CoveredInsert(deadlines: map<nat, nat>, p: map<nat, Pos>, p': map<nat, Pos>, e: nat, r: nat, d: nat, q: Pos)
    requires Covered(deadlines, p, [], e) && p'.Keys == p.Keys - {r}
    ensures Covered(deadlines[r := d], p'[r := q], [], e)
  {
    forall x | x in deadlines && x != r
      ensures x in p'
    {
      assert x in p.Keys;
    }
  }

  lemma MovesInsert(p: map<nat, Pos>, moves: map<nat, nat>, born: map<nat, nat>, r: nat, q: Pos)
    requires MovesBounded(p, moves, born)
    ensures MovesBounded(p[r := q], moves[r := 0], born[r := q.level])
  {
  }

  // ---- remove ----

  ghost function AfterRemove(w: Wheel, r: nat): Wheel
    requires WellFormed(w)
  {
    if r !in w.deadlines then w
    else w.(slots := Removed(w.slots, r),
            deadlines := w.deadlines - {r},
            cachedMin := Invalidated(w.cachedMin, w.deadlines[r]))
  }

  lemma AfterRemoveKeeps(w: Wheel, r: nat)
    requires WellFormed(w) && w.pending == []
    ensures WellFormed(AfterRemove(w, r))
  {
    if r in w.deadlines {
      RemovedKeeps(w.slots, r);
      RemovedPositions(w.slots, r);
      var p := Removed(w.slots, r).positions;
      PlacedRemove(w.slots.positions, p, w.deadlines, r, w.elapsed);
      DropKeepsMin(w.cachedMin, w.deadlines, r);
      MovesKept(w.slots.positions, p, w.moves, w.born);
    }
  }

  // ---- popping a pending id ----

  function Last(s: seq<nat>): nat
    requires s != []
  {
    s[|s| - 1]
  }

  function ButLast(s: seq<nat>): seq<nat>
    requires s != []
  {
    s[..|s| - 1]
  }

  /** The last pending id, live, is dropped from every table. */
  ghost function AfterFire(w: Wheel): Wheel
    requires w.pending != [] && Last(w.pending) in w.deadlines
  {
    var r := Last(w.pending);
    w.(pending := ButLast(w.pending),
       cachedMin := Invalidated(w.cachedMin, w.deadlines[r]),
       deadlines := w.deadlines - {r},
       slots := w.slots.(positions := w.slots.positions - {r}))
  }

  lemma AfterFireKeeps(w: Wheel)
    requires WellFormed(w) && w.pending != [] && Last(w.pending) in w.deadlines
    ensures WellFormed(AfterFire(w))
    ensures AfterFire(w).slots == w.slots && w.deadlines[Last(w.pending)] <= w.elapsed
  {
    var r := Last(w.pending);
    assert r in w.pending;
    assert w.slots.positions - {r} == w.slots.positions;
    CoveredPop(w.deadlines, w.slots.positions, w.pending, w.elapsed);
    PlacedRemove(w.slots.positions, w.slots.positions, w.deadlines, r, w.elapsed);
    DropKeepsMin(w.cachedMin, w.deadlines, r);
  }

  lemma CoveredPop(deadlines: map<nat, nat>, positions: map<nat, Pos>, pending: seq<nat>, e: nat)
    requires Covered(deadlines, positions, pending, e) && pending != []
    ensures Covered(deadlines - {Last(pending)}, positions, ButLast(pending), e)
  {
    assert pending == ButLast(pending) + [Last(pending)];
  }

  lemma AfterFireTight(w: Wheel)
    requires w.pending != [] && Last(w.pending) in w.deadlines && Tight(w)
    ensures Tight(AfterFire(w))
  {
    assert w.pending == ButLast(w.pending) + [Last(w.pending)];
  }

  /** A stale pending id is skipped. */
  lemma SkipKeeps(w: Wheel)
    requires WellFormed(w) && w.pending != [] && Last(w.pending) !in w.deadlines
    ensures WellFormed(w.(pending := ButLast(w.pending)))
  {
    CoveredPop(w.deadlines, w.slots.positions, w.pending, w.elapsed);
    assert w.deadlines - {Last(w.pending)} == w.deadlines;
  }
}
