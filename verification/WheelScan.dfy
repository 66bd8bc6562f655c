/**
 Why scanning the rings finds minima: on levels 0 to 2 ring order is deadline order, and
 what is pending precedes what is in the wheel.
 */
module WheelScan {
  import opened Options
  import opened Ring
  import opened WheelModel

  ghost predicate AtLevel(w: Wheel, r: nat, level: nat)
  {
    r in w.slots.positions && w.slots.positions[r].level == level
  }

  /** `d` is the smallest deadline on `level`. */
  ghost predicate LevelMin(w: Wheel, level: nat, d: nat)
  {
    && (exists r :: AtLevel(w, r, level) && r in w.deadlines && w.deadlines[r] == d)
    && (forall r :: AtLevel(w, r, level) ==> r in w.deadlines && d <= w.deadlines[r])
  }

  /** Every timer on `level` exceeds the bound; without a bound, the level is empty. */
  ghost predicate LevelBeyond(w: Wheel, level: nat, bound: Option<nat>)
  {
    forall r :: AtLevel(w, r, level) ==> bound.Some? && r in w.deadlines && bound.value < w.deadlines[r]
  }

  /** `d` is the smallest of all deadlines. */
  ghost predicate IsMin(deadlines: map<nat, nat>, d: nat)
  {
    && (exists r :: r in deadlines && deadlines[r] == d)
    && (forall r :: r in deadlines ==> d <= deadlines[r])
  }

  /** No timer of `level` lies fewer than `o` ring steps ahead. */
  ghost predicate GapBefore(w: Wheel, level: nat, o: nat)
    requires level < LEVELS
  {
    forall r :: AtLevel(w, r, level) ==> o <= Off(w.slots.positions[r].slot, SlotOf(w.elapsed, level))
  }

  lemma GapStart(w: Wheel, level: nat)
    requires level < LEVELS
    ensures GapBefore(w, level, 1)
  {
  }

  lemma LevelsOfWellFormed(w: Wheel)
    requires WellFormed(w)
    ensures Shape(w.slots.levels) && |w.slots.levels| == |w.slots.counts| == LEVELS
    ensures forall l :: 0 <= l < LEVELS ==> |w.slots.levels[l]| == SLOTS
    ensures AllPlaced(w.slots.positions, w.deadlines, w.elapsed) && SlotsOk(w.slots, [])
  {
  }

  lemma GapExtends(w: Wheel, level: nat, o: nat)
    requires WellFormed(w) && level < LEVELS && 1 <= o <= SLOTS && GapBefore(w, level, o)
    requires w.slots.levels[level][(SlotOf(w.elapsed, level) + o) % SLOTS] == []
    ensures GapBefore(w, level, o + 1)
  {
    hide Placed, Covered, MinValid, MovesBounded, Off, SlotOf;
    var cur := SlotOf(w.elapsed, level);
    OffVisits(cur, o);
    forall r | AtLevel(w, r, level)
      ensures Off(w.slots.positions[r].slot, cur) != o
    {
      if Off(w.slots.positions[r].slot, cur) == o {
        OffInjective(w.slots.positions[r].slot, (cur + o) % SLOTS, cur);
      }
    }
  }

  lemma GapWhole(w: Wheel, level: nat, bound: Option<nat>)
    requires level < LEVELS && GapBefore(w, level, SLOTS + 1)
    ensures LevelBeyond(w, level, bound)
  {
    assert forall r :: !AtLevel(w, r, level);
  }

  /** The prefilter: past the gap every deadline exceeds a bound that is shifted-smaller. */
  lemma GapBeyond(w: Wheel, level: nat, o: nat, b: nat)
    requires AllPlaced(w.slots.positions, w.deadlines, w.elapsed) && level < 3 && GapBefore(w, level, o)
    requires Shift(b, level) < Shift(w.elapsed, level) + o
    ensures LevelBeyond(w, level, Some(b))
  {
    forall r | AtLevel(w, r, level)
      ensures r in w.deadlines && b < w.deadlines[r]
    {
      var p := w.slots.positions[r];
      RingDistance(level, p.slot, w.deadlines[r], w.elapsed);
      if w.deadlines[r] <= b { ShiftMonotone(w.deadlines[r], b, level); }
    }
  }

  /** `best` is the smallest deadline in one slot. */
  ghost predicate SlotMin(w: Wheel, members: seq<nat>, best: nat)
  {
    && (exists k :: 0 <= k < |members| && members[k] in w.deadlines && w.deadlines[members[k]] == best)
    && (forall k :: 0 <= k < |members| && members[k] in w.deadlines ==> best <= w.deadlines[members[k]])
  }

  /** The first occupied slot of the ring holds the minimum of a level below 3. */
  lemma FirstSlotMin(w: Wheel, level: nat, o: nat, best: nat)
    requires WellFormed(w) && level < 3 && 1 <= o <= SLOTS && GapBefore(w, level, o)
    requires SlotMin(w, w.slots.levels[level][(SlotOf(w.elapsed, level) + o) % SLOTS], best)
    ensures LevelMin(w, level, best)
  {
    var slot := (SlotOf(w.elapsed, level) + o) % SLOTS;
    var k :| 0 <= k < |w.slots.levels[level][slot]| && w.slots.levels[level][slot][k] in w.deadlines
      && w.deadlines[w.slots.levels[level][slot][k]] == best;
    var first := w.slots.levels[level][slot][k];
    assert AtLevel(w, first, level);
    forall r | AtLevel(w, r, level)
      ensures r in w.deadlines && best <= w.deadlines[r]
    {
      FirstSlotBeats(w, level, o, first, r, best);
    }
  }

  lemma FirstSlotBeats(w: Wheel, level: nat, o: nat, first: nat, r: nat, best: nat)
    requires WellFormed(w) && level < 3 && 1 <= o <= SLOTS && GapBefore(w, level, o)
    requires AtLevel(w, first, level) && AtLevel(w, r, level)
    requires w.slots.positions[first].slot == (SlotOf(w.elapsed, level) + o) % SLOTS
    requires first in w.deadlines && w.deadlines[first] == best
    requires SlotMin(w, w.slots.levels[level][(SlotOf(w.elapsed, level) + o) % SLOTS], best)
    ensures r in w.deadlines && best <= w.deadlines[r]
  {
    hide Covered, MinValid, MovesBounded, Off, SlotOf;
    var cur := SlotOf(w.elapsed, level);
    var p := w.slots.positions[r];
    OffVisits(cur, o);
    if p.slot == (cur + o) % SLOTS {
      assert w.slots.levels[level][p.slot][p.idx] == r;
    } else {
      if Off(p.slot, cur) == o { OffInjective(p.slot, (cur + o) % SLOTS, cur); }
      RingDistance(level, p.slot, w.deadlines[r], w.elapsed);
      RingDistance(level, w.slots.positions[first].slot, best, w.elapsed);
      if w.deadlines[r] < best { ShiftMonotone(w.deadlines[r], best, level); }
    }
  }

  /** On level 0 all members of a slot share one deadline, so any member is its minimum. */
  lemma LevelZeroSlot(w: Wheel, o: nat)
    requires WellFormed(w) && 1 <= o <= SLOTS
    requires w.slots.levels[0][(SlotOf(w.elapsed, 0) + o) % SLOTS] != []
    ensures
      var members := w.slots.levels[0][(SlotOf(w.elapsed, 0) + o) % SLOTS];
      members[0] in w.deadlines && SlotMin(w, members, w.deadlines[members[0]])
  {
    hide Covered, MinValid, MovesBounded;
    var slot := (SlotOf(w.elapsed, 0) + o) % SLOTS;
    var members := w.slots.levels[0][slot];
    forall k | 0 <= k < |members|
      ensures members[k] in w.deadlines && w.deadlines[members[k]] == w.elapsed + Off(slot, SlotOf(w.elapsed, 0))
    {
      assert w.slots.positions[w.slots.levels[0][slot][k]] == Pos(0, slot, k);
      RingDistance(0, slot, w.deadlines[members[k]], w.elapsed);
    }
  }

  lemma MembersLive(w: Wheel, level: nat, slot: nat)
    requires WellFormed(w) && level < LEVELS && slot < SLOTS
    ensures forall k :: 0 <= k < |w.slots.levels[level][slot]| ==> w.slots.levels[level][slot][k] in w.deadlines
  {
    forall k | 0 <= k < |w.slots.levels[level][slot]|
      ensures w.slots.levels[level][slot][k] in w.deadlines
    {
      assert w.slots.levels[level][slot][k] in w.slots.positions;
    }
  }

  // ---- level 3 and the whole wheel ----

  /** `best` is the minimum over the first `n` slots of level 3. */
  ghost predicate MinUpTo(w: Wheel, n: nat, best: Option<nat>)
  {
    && (best.Some? ==> exists r :: AtLevel(w, r, 3) && r in w.deadlines && w.deadlines[r] == best.value)
    && (forall r :: AtLevel(w, r, 3) && w.slots.positions[r].slot < n ==>
         best.Some? && r in w.deadlines && best.value <= w.deadlines[r])
  }

  lemma MinUpToStart(w: Wheel)
    ensures MinUpTo(w, 0, None)
  {
  }

  lemma MinUpToNext(w: Wheel, n: nat, best: Option<nat>, best': Option<nat>)
    requires WellFormed(w) && n < SLOTS && MinUpTo(w, n, best)
    requires best.Some? ==> best'.Some? && best'.value <= best.value
    requires best'.Some? ==>
      || (best.Some? && best'.value == best.value)
      || exists k :: 0 <= k < |w.slots.levels[3][n]| && w.slots.levels[3][n][k] in w.deadlines
                     && w.deadlines[w.slots.levels[3][n][k]] == best'.value
    requires forall k :: 0 <= k < |w.slots.levels[3][n]| && w.slots.levels[3][n][k] in w.deadlines ==>
      best'.Some? && best'.value <= w.deadlines[w.slots.levels[3][n][k]]
    ensures MinUpTo(w, n + 1, best')
  {
    if best'.Some? && !(best.Some? && best'.value == best.value) {
      var k :| 0 <= k < |w.slots.levels[3][n]| && w.slots.levels[3][n][k] in w.deadlines
               && w.deadlines[w.slots.levels[3][n][k]] == best'.value;
      assert AtLevel(w, w.slots.levels[3][n][k], 3);
    }
    forall r | AtLevel(w, r, 3) && w.slots.positions[r].slot < n + 1
      ensures best'.Some? && r in w.deadlines && best'.value <= w.deadlines[r]
    {
      var p := w.slots.positions[r];
      if p.slot == n { assert w.slots.levels[3][n][p.idx] == r; }
    }
  }

  lemma MinUpToAll(w: Wheel, best: Option<nat>)
    requires SlotsOk(w.slots, []) && MinUpTo(w, SLOTS, best)
    ensures if best.Some? then LevelMin(w, 3, best.value) else LevelBeyond(w, 3, None)
  {
  }

  /** A zero counter means an empty level. */
  lemma EmptyLevel(w: Wheel, level: nat, bound: Option<nat>)
    requires WellFormed(w) && level < LEVELS && w.slots.counts[level] == 0
    ensures LevelBeyond(w, level, bound)
  {
    SlotsLenZero(w.slots.levels[level]);
    assert forall r :: !AtLevel(w, r, level);
  }

  /** What is pending is due, so it precedes everything still in the wheel. */
  lemma PendingFirst(w: Wheel, best: nat)
    requires WellFormed(w)
    requires exists k :: 0 <= k < |w.pending| && w.pending[k] in w.deadlines && w.deadlines[w.pending[k]] == best
    requires forall k :: 0 <= k < |w.pending| && w.pending[k] in w.deadlines ==> best <= w.deadlines[w.pending[k]]
    ensures IsMin(w.deadlines, best)
  {
    var k :| 0 <= k < |w.pending| && w.pending[k] in w.deadlines && w.deadlines[w.pending[k]] == best;
    assert w.pending[k] in w.pending;
    forall r | r in w.deadlines
      ensures best <= w.deadlines[r]
    {
      if r !in w.pending {
        var p := w.slots.positions[r];
        PlacedAhead(p.level, p.slot, w.deadlines[r], w.elapsed);
      }
    }
  }

  function MergeMin(best: Option<nat>, d: nat): Option<nat>
  {
    if best.None? || d < best.value then Some(d) else best
  }

  function MergeOption(best: Option<nat>, c: Option<nat>): Option<nat>
  {
    if c.Some? then MergeMin(best, c.value) else best
  }

  ghost predicate Candidate(w: Wheel, level: nat, c: Option<nat>, bound: Option<nat>)
  {
    if c.Some? then LevelMin(w, level, c.value) else LevelBeyond(w, level, bound)
  }

  function Merged(c0: Option<nat>, c1: Option<nat>, c2: Option<nat>, c3: Option<nat>): Option<nat>
  {
    MergeOption(MergeOption(MergeOption(MergeOption(None, c0), c1), c2), c3)
  }

  lemma MergedLeast(c0: Option<nat>, c1: Option<nat>, c2: Option<nat>, c3: Option<nat>)
    ensures
      var best := Merged(c0, c1, c2, c3);
      && (best.Some? <==> c0.Some? || c1.Some? || c2.Some? || c3.Some?)
      && (best.Some? ==> best == c0 || best == c1 || best == c2 || best == c3)
      && (c0.Some? ==> best.value <= c0.value) && (c1.Some? ==> best.value <= c1.value)
      && (c2.Some? ==> best.value <= c2.value) && (c3.Some? ==> best.value <= c3.value)
  {
  }

  /** The least of the four candidates is the least deadline, when nothing live is pending. */
  lemma CandidatesMerge(w: Wheel, c0: Option<nat>, c1: Option<nat>, c2: Option<nat>, c3: Option<nat>)
    requires WellFormed(w) && forall r :: r in w.pending ==> r !in w.deadlines
    requires Candidate(w, 0, c0, None) && Candidate(w, 1, c1, c0)
    requires Candidate(w, 2, c2, c0) && Candidate(w, 3, c3, None)
    ensures
      var best := Merged(c0, c1, c2, c3);
      if best.Some? then IsMin(w.deadlines, best.value) else w.deadlines == map[]
  {
    hide Merged;
    var best := Merged(c0, c1, c2, c3);
    MergedLeast(c0, c1, c2, c3);
    forall r | r in w.deadlines
      ensures best.Some? && best.value <= w.deadlines[r]
    {
      InSomeLevel(w, r);
      CandidateCovers(w, c0, c1, c2, c3, best, r);
    }
    if best.Some? {
      MergedWitness(w, c0, c1, c2, c3, best.value);
    }
  }

  lemma InSomeLevel(w: Wheel, r: nat)
    requires WellFormed(w) && r in w.deadlines && r !in w.pending
    ensures AtLevel(w, r, 0) || AtLevel(w, r, 1) || AtLevel(w, r, 2) || AtLevel(w, r, 3)
  {
    assert r in w.slots.positions;
  }

  lemma CandidateCovers(
      w: Wheel, c0: Option<nat>, c1: Option<nat>, c2: Option<nat>, c3: Option<nat>, best: Option<nat>, r: nat)
    requires Candidate(w, 0, c0, None) && Candidate(w, 1, c1, c0)
    requires Candidate(w, 2, c2, c0) && Candidate(w, 3, c3, None)
    requires r in w.deadlines
    requires AtLevel(w, r, 0) || AtLevel(w, r, 1) || AtLevel(w, r, 2) || AtLevel(w, r, 3)
    requires best.Some? <==> c0.Some? || c1.Some? || c2.Some? || c3.Some?
    requires forall c :: c in {c0, c1, c2, c3} && c.Some? ==> best.value <= c.value
    ensures best.Some? && best.value <= w.deadlines[r]
  {
    assert c0 in {c0, c1, c2, c3} && c1 in {c0, c1, c2, c3} && c2 in {c0, c1, c2, c3} && c3 in {c0, c1, c2, c3};
  }

  lemma MergedWitness(w: Wheel, c0: Option<nat>, c1: Option<nat>, c2: Option<nat>, c3: Option<nat>, d: nat)
    requires Candidate(w, 0, c0, None) && Candidate(w, 1, c1, c0)
    requires Candidate(w, 2, c2, c0) && Candidate(w, 3, c3, None)
    requires c0 == Some(d) || c1 == Some(d) || c2 == Some(d) || c3 == Some(d)
    ensures exists r :: r in w.deadlines && w.deadlines[r] == d
  {
    var level := if c0 == Some(d) then 0 else if c1 == Some(d) then 1 else if c2 == Some(d) then 2 else 3;
    var r :| AtLevel(w, r, level) && r in w.deadlines && w.deadlines[r] == d;
  }

  lemma NoneDue(w: Wheel)
    requires WellFormed(w) && w.pending == []
    ensures forall r :: r in w.deadlines ==> w.elapsed < w.deadlines[r]
  {
    forall r | r in w.deadlines
      ensures w.elapsed < w.deadlines[r]
    {
      var p := w.slots.positions[r];
      PlacedAhead(p.level, p.slot, w.deadlines[r], w.elapsed);
    }
  }
}
