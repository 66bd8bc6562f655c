/**
 Advancing the clock of the timer wheel: the invariant of the sweep over levels and slots,
 and proofs that every step of the sweep keeps it.
 */
module WheelAdvance {
  import opened Options
  import opened Seqs
  import opened Ring
  import opened WheelModel
  import opened WheelSlots

  /** A sweep from clock `from` to clock `to`, about to handle ring offset `i` of `level`. */
  datatype Sweep = Sweep(from: nat, to: nat, level: nat, i: nat)

  // ---- one timer during a sweep ----

  predicate Visited(p: Pos, sw: Sweep)
  {
    || p.level < sw.level
    || (p.level == sw.level < LEVELS && Off(p.slot, SlotOf(sw.from, sw.level)) < sw.i)
  }

  /**
   What one advance does to a timer that stays in the wheel: nothing, or a single
   re-placement, strictly lower except that a level-3 timer may return to its slot.
   */
  predicate MovedAtMostOnce(p0: Pos, m0: nat, p: Pos, m: nat)
  {
    || (m == m0 && p.level == p0.level && p.slot == p0.slot)
    || (m == m0 + 1 && (p.level < p0.level || (p.level == p0.level == 3 && p.slot == p0.slot)))
  }

  /** A timer taken out of the slot just drained has not been touched otherwise. */
  predicate LooseOk(p: Pos, d: nat, sw: Sweep)
  {
    && p.level == sw.level < LEVELS
    && Off(p.slot, SlotOf(sw.from, sw.level)) + 1 == sw.i
    && Placed(p.level, p.slot, d, sw.from)
  }

  predicate TimerOk(p0: Pos, m0: nat, p: Pos, m: nat, d: nat, sw: Sweep, loose: bool)
  {
    && MovedAtMostOnce(p0, m0, p, m)
    && p.level < LEVELS
    && (if loose then LooseOk(p, d, sw) && m == m0
        else if Visited(p, sw) then Placed(p.level, p.slot, d, sw.to)
        else Placed(p.level, p.slot, d, sw.from) && m == m0)
  }

  lemma TimerReplaced(p0: Pos, m0: nat, p: Pos, d: nat, sw: Sweep, idx: nat)
    requires TimerOk(p0, m0, p, m0, d, sw, true) && sw.from <= sw.to < d
    requires sw.i <= Shift(sw.to, sw.level) - Shift(sw.from, sw.level) + 1
    ensures TimerOk(p0, m0, Pos(LevelOf(d - sw.to), SlotOf(d, LevelOf(d - sw.to)), idx), m0 + 1, d, sw, false)
  {
    CascadeDescends(p.level, p.slot, d, sw.from, sw.to);
    PlaceFresh(d, sw.to);
  }

  lemma TimerNextLevel(p0: Pos, m0: nat, p: Pos, m: nat, d: nat, sw: Sweep)
    requires TimerOk(p0, m0, p, m, d, sw, false) && sw.level < LEVELS && sw.from <= sw.to
    requires Shift(sw.to, sw.level) - Shift(sw.from, sw.level) < sw.i || sw.i == SLOTS + 1
    ensures TimerOk(p0, m0, p, m, d, sw.(level := sw.level + 1, i := 1), false)
  {
    if p.level == sw.level && !Visited(p, sw) {
      StaysPlaced(p.level, p.slot, d, sw.from, sw.to);
    }
  }

  lemma {:induction false} ShiftStable(e: nat, now: nat, level: nat, level': nat)
    requires level <= level' < LEVELS && Shift(e, level) == Shift(now, level)
    ensures Shift(e, level') == Shift(now, level')
    decreases level' - level
  {
    if level < level' {
      ShiftUp(e, level);
      ShiftUp(now, level);
      ShiftStable(e, now, level + 1, level');
    }
  }

  lemma ShiftUp(t: nat, level: nat)
    requires level + 1 < LEVELS
    ensures Shift(t, level + 1) == Shift(t, level) / 256
  {
    if level == 1 {
      assert t / 65536 == t / 256 / 256;
    } else if level == 2 {
      assert t / 16777216 == t / 65536 / 256;
    }
  }

  lemma TimerFinish(p0: Pos, m0: nat, p: Pos, m: nat, d: nat, sw: Sweep)
    requires TimerOk(p0, m0, p, m, d, sw, false) && sw.i == 1 && sw.from <= sw.to
    requires sw.level < LEVELS ==> Shift(sw.from, sw.level) == Shift(sw.to, sw.level)
    ensures Placed(p.level, p.slot, d, sw.to) && sw.to < d
  {
    if !Visited(p, sw) {
      ShiftStable(sw.from, sw.to, sw.level, p.level);
    }
    PlacedAhead(p.level, p.slot, d, sw.to);
  }

  // ---- the whole wheel during a sweep ----

  ghost predicate TimersOk(w0: Wheel, p: map<nat, Pos>, moves: map<nat, nat>, sw: Sweep, loose: seq<nat>)
  {
    forall r :: r in p ==>
      && r in w0.slots.positions && r in w0.moves && r in moves && r in w0.deadlines
      && TimerOk(w0.slots.positions[r], w0.moves[r], p[r], moves[r], w0.deadlines[r], sw, r in loose)
  }

  /** Exactly the timers that lost their position are pending, and they are due. */
  ghost predicate PendingOk(deadlines: map<nat, nat>, p: map<nat, Pos>, pending: seq<nat>, to: nat)
  {
    && (forall r :: r in deadlines ==> r in p || r in pending)
    && (forall r :: r in pending ==> r !in p && r in deadlines && deadlines[r] <= to)
    && Distinct(pending)
  }

  /** The wheel `w` in the middle of a sweep that began at `w0`. */
  ghost predicate Mid(w0: Wheel, w: Wheel, sw: Sweep, loose: seq<nat>)
  {
    && SlotsOk(w.slots, loose)
    && w == w0.(slots := w.slots, pending := w.pending, moves := w.moves)
    && TimersOk(w0, w.slots.positions, w.moves, sw, loose)
    && PendingOk(w.deadlines, w.slots.positions, w.pending, sw.to)
  }

  lemma MidStart(w0: Wheel, now: nat)
    requires WellFormed(w0) && w0.pending == [] && w0.elapsed <= now
    ensures Mid(w0, w0, Sweep(w0.elapsed, now, 0, 1), [])
  {
  }

  /** The next slot of the ring is drained. */
  lemma MidTake(w0: Wheel, w: Wheel, sw: Sweep, slot: nat)
    requires Mid(w0, w, sw, []) && sw.level < LEVELS && 1 <= sw.i <= SLOTS
    requires slot == (SlotOf(sw.from, sw.level) + sw.i) % SLOTS
    ensures |w.slots.levels[sw.level][slot]| <= w.slots.counts[sw.level]
    ensures Mid(w0, w.(slots := Taken(w.slots, sw.level, slot)), sw.(i := sw.i + 1), w.slots.levels[sw.level][slot])
  {
    SlotCounted(w.slots.levels[sw.level], slot);
    TakenKeeps(w.slots, sw.level, slot);
    SlotMembers(w.slots, sw.level, slot);
    TimersTake(w0, w.slots.positions, w.moves, sw, slot, w.slots.levels[sw.level][slot]);
  }

  lemma SlotMembers(s: Slots, level: nat, slot: nat)
    requires SlotsOk(s, []) && level < LEVELS && slot < SLOTS
    ensures forall r :: r in s.positions ==>
      (r in s.levels[level][slot] <==> s.positions[r].level == level && s.positions[r].slot == slot)
  {
    forall r | r in s.positions && r in s.levels[level][slot]
      ensures s.positions[r].level == level && s.positions[r].slot == slot
    {
      var k :| 0 <= k < |s.levels[level][slot]| && s.levels[level][slot][k] == r;
      assert s.positions[s.levels[level][slot][k]] == Pos(level, slot, k);
    }
  }

  lemma TimersTake(w0: Wheel, p: map<nat, Pos>, moves: map<nat, nat>, sw: Sweep, slot: nat, members: seq<nat>)
    requires TimersOk(w0, p, moves, sw, []) && sw.level < LEVELS && 1 <= sw.i <= SLOTS
    requires slot == (SlotOf(sw.from, sw.level) + sw.i) % SLOTS
    requires forall r :: r in p ==> (r in members <==> p[r].level == sw.level && p[r].slot == slot)
    ensures TimersOk(w0, p, moves, sw.(i := sw.i + 1), members)
  {
    forall r | r in p
      ensures TimerOk(w0.slots.positions[r], w0.moves[r], p[r], moves[r], w0.deadlines[r],
                      sw.(i := sw.i + 1), r in members)
    {
      TimerTake(w0.slots.positions[r], w0.moves[r], p[r], moves[r], w0.deadlines[r], sw, slot);
    }
  }

  lemma TimerTake(p0: Pos, m0: nat, p: Pos, m: nat, d: nat, sw: Sweep, slot: nat)
    requires TimerOk(p0, m0, p, m, d, sw, false) && sw.level < LEVELS && 1 <= sw.i <= SLOTS
    requires slot == (SlotOf(sw.from, sw.level) + sw.i) % SLOTS
    ensures TimerOk(p0, m0, p, m, d, sw.(i := sw.i + 1), p.level == sw.level && p.slot == slot)
  {
    OffVisits(SlotOf(sw.from, sw.level), sw.i);
    assert p.slot < SLOTS;
    if p.level == sw.level && Off(p.slot, SlotOf(sw.from, sw.level)) == sw.i {
      OffInjective(p.slot, slot, SlotOf(sw.from, sw.level));
    }
  }

  lemma LevelsOfMid(w0: Wheel, w: Wheel, sw: Sweep, loose: seq<nat>)
    requires Mid(w0, w, sw, loose)
    ensures Shape(w.slots.levels) && |w.slots.counts| == LEVELS
    ensures w.elapsed == w0.elapsed && w.deadlines == w0.deadlines && w.cachedMin == w0.cachedMin && w.born == w0.born
  {
  }

  lemma LooseHead(w0: Wheel, w: Wheel, sw: Sweep, loose: seq<nat>)
    requires Mid(w0, w, sw, loose) && loose != []
    ensures loose[0] in w.slots.positions && loose[0] in w.moves && loose[0] in w.deadlines
    ensures Shape(w.slots.levels) && |w.slots.counts| == LEVELS
  {
  }

  /** A drained timer that is due moves to `pending`. */
  lemma MidExpire(w0: Wheel, w: Wheel, sw: Sweep, loose: seq<nat>)
    requires Mid(w0, w, sw, loose) && loose != []
    requires loose[0] in w.deadlines && w.deadlines[loose[0]] <= sw.to
    ensures
      var w' := w.(slots := w.slots.(positions := w.slots.positions - {loose[0]}), pending := w.pending + [loose[0]]);
      Mid(w0, w', sw, loose[1..])
  {
    DroppedKeeps(w.slots, loose);
    TimersDrop(w0, w.slots.positions, w.moves, sw, loose);
    PendingPush(w.deadlines, w.slots.positions, w.pending, sw.to, loose[0]);
  }

  lemma TimersDrop(w0: Wheel, p: map<nat, Pos>, moves: map<nat, nat>, sw: Sweep, loose: seq<nat>)
    requires TimersOk(w0, p, moves, sw, loose) && loose != []
    ensures TimersOk(w0, p - {loose[0]}, moves, sw, loose[1..])
  {
    assert loose == [loose[0]] + loose[1..];
  }

  lemma PendingPush(deadlines: map<nat, nat>, p: map<nat, Pos>, pending: seq<nat>, to: nat, r: nat)
    requires PendingOk(deadlines, p, pending, to) && r in p && r in deadlines && deadlines[r] <= to
    ensures PendingOk(deadlines, p - {r}, pending + [r], to)
  {
  }

  /** The first loose timer re-placed by its remaining distance, one move later. */
  ghost function Replaced(w: Wheel, r: nat, now: nat): Wheel
    requires Shape(w.slots.levels) && |w.slots.counts| == LEVELS
    requires r in w.deadlines && now <= w.deadlines[r] && r in w.moves
  {
    w.(slots := Inserted(w.slots, r, w.deadlines[r], now), moves := w.moves[r := w.moves[r] + 1])
  }

  lemma MidPlace(w0: Wheel, w: Wheel, sw: Sweep, loose: seq<nat>)
    requires Mid(w0, w, sw, loose) && loose != [] && sw.from <= sw.to && sw.level < LEVELS
    requires loose[0] in w.deadlines && sw.to < w.deadlines[loose[0]] && loose[0] in w.moves
    requires sw.i <= Shift(sw.to, sw.level) - Shift(sw.from, sw.level) + 1
    ensures Mid(w0, Replaced(w, loose[0], sw.to), sw, loose[1..])
  {
    var idx := MidPlaceSlots(w0, w, sw, loose);
    MidPlaceTimers(w0, w, sw, loose, idx);
    PendingPlace(w.deadlines, w.slots.positions, w.pending, sw.to, loose[0],
                 Replaced(w, loose[0], sw.to).slots.positions[loose[0]]);
  }

  lemma MidPlaceSlots(w0: Wheel, w: Wheel, sw: Sweep, loose: seq<nat>) returns (idx: nat)
    requires Mid(w0, w, sw, loose) && loose != []
    requires loose[0] in w.deadlines && sw.to < w.deadlines[loose[0]] && loose[0] in w.moves
    ensures SlotsOk(Replaced(w, loose[0], sw.to).slots, loose[1..])
    ensures loose[0] in w.slots.positions && loose[0] !in loose[1..] && w.deadlines == w0.deadlines
    ensures
      var d := w0.deadlines[loose[0]];
      Replaced(w, loose[0], sw.to).slots.positions
        == w.slots.positions[loose[0] := Pos(LevelOf(d - sw.to), SlotOf(d, LevelOf(d - sw.to)), idx)]
  {
    idx := PlaceSlots(w.slots, loose, w.deadlines[loose[0]], sw.to);
  }

  lemma PlaceSlots(s: Slots, loose: seq<nat>, d: nat, now: nat) returns (idx: nat)
    requires SlotsOk(s, loose) && loose != [] && now < d
    ensures loose[0] in s.positions && loose[0] !in loose[1..]
    ensures SlotsOk(Inserted(s, loose[0], d, now), loose[1..])
    ensures Inserted(s, loose[0], d, now).positions
      == s.positions[loose[0] := Pos(LevelOf(d - now), SlotOf(d, LevelOf(d - now)), idx)]
  {
    var l := LevelOf(d - now);
    PushedKeeps(s, loose, loose[1..], l, SlotOf(d, l), loose[0]);
    idx := |s.levels[l][SlotOf(d, l)]|;
  }

  lemma PendingPlace(deadlines: map<nat, nat>, p: map<nat, Pos>, pending: seq<nat>, to: nat, r: nat, q: Pos)
    requires PendingOk(deadlines, p, pending, to) && r in p
    ensures PendingOk(deadlines, p[r := q], pending, to)
  {
  }

  lemma MidPlaceTimers(w0: Wheel, w: Wheel, sw: Sweep, loose: seq<nat>, idx: nat)
    requires TimersOk(w0, w.slots.positions, w.moves, sw, loose) && loose != [] && sw.from <= sw.to && sw.level < LEVELS
    requires loose[0] in w.slots.positions && loose[0] !in loose[1..]
    requires loose[0] in w.deadlines && sw.to < w.deadlines[loose[0]] && w.deadlines == w0.deadlines
    requires Shape(w.slots.levels) && |w.slots.counts| == LEVELS && loose[0] in w.moves
    requires sw.i <= Shift(sw.to, sw.level) - Shift(sw.from, sw.level) + 1
    requires
      var d := w0.deadlines[loose[0]];
      Replaced(w, loose[0], sw.to).slots.positions
        == w.slots.positions[loose[0] := Pos(LevelOf(d - sw.to), SlotOf(d, LevelOf(d - sw.to)), idx)]
    ensures
      var w' := Replaced(w, loose[0], sw.to);
      TimersOk(w0, w'.slots.positions, w'.moves, sw, loose[1..])
  {
    var r := loose[0];
    TimerReplaced(w0.slots.positions[r], w0.moves[r], w.slots.positions[r], w0.deadlines[r], sw, idx);
    assert loose == [r] + loose[1..];
  }

  /** A level is done once every slot the clock swept over was visited. */
  lemma MidNextLevel(w0: Wheel, w: Wheel, sw: Sweep)
    requires Mid(w0, w, sw, []) && sw.level < LEVELS && sw.from <= sw.to
    requires Shift(sw.to, sw.level) - Shift(sw.from, sw.level) < sw.i || sw.i == SLOTS + 1
    ensures Mid(w0, w, sw.(level := sw.level + 1, i := 1), [])
  {
    forall r | r in w.slots.positions
      ensures TimerOk(w0.slots.positions[r], w0.moves[r], w.slots.positions[r], w.moves[r], w0.deadlines[r],
                      sw.(level := sw.level + 1, i := 1), false)
    {
      TimerNextLevel(w0.slots.positions[r], w0.moves[r], w.slots.positions[r], w.moves[r], w0.deadlines[r], sw);
    }
  }

  ghost predicate AllMovedAtMostOnce(w0: Wheel, w: Wheel)
  {
    forall r :: r in w.slots.positions ==>
      && r in w0.slots.positions && r in w0.moves && r in w.moves
      && MovedAtMostOnce(w0.slots.positions[r], w0.moves[r], w.slots.positions[r], w.moves[r])
  }

  /** Levels from the first unchanged shifted position on need no sweep. */
  lemma MidFinish(w0: Wheel, w: Wheel, sw: Sweep)
    requires WellFormed(w0) && Mid(w0, w, sw, []) && sw.from <= sw.to && sw.i == 1
    requires sw.level < LEVELS ==> Shift(sw.from, sw.level) == Shift(sw.to, sw.level)
    ensures WellFormed(w.(elapsed := sw.to)) && Tight(w.(elapsed := sw.to))
    ensures forall r :: r in w.pending <==> r in w.deadlines && w.deadlines[r] <= sw.to
    ensures AllMovedAtMostOnce(w0, w)
  {
    TimersFinish(w0, w.slots.positions, w.moves, sw);
    CoveredFinish(w.deadlines, w.slots.positions, w.pending, sw.to);
    MovesFinish(w0, w);
  }

  lemma TimersFinish(w0: Wheel, p: map<nat, Pos>, moves: map<nat, nat>, sw: Sweep)
    requires TimersOk(w0, p, moves, sw, []) && sw.from <= sw.to && sw.i == 1
    requires sw.level < LEVELS ==> Shift(sw.from, sw.level) == Shift(sw.to, sw.level)
    ensures AllPlaced(p, w0.deadlines, sw.to)
    ensures forall r :: r in p ==> r in w0.deadlines && sw.to < w0.deadlines[r]
  {
    forall r | r in p
      ensures p[r].level < LEVELS && Placed(p[r].level, p[r].slot, w0.deadlines[r], sw.to) && sw.to < w0.deadlines[r]
    {
      TimerFinish(w0.slots.positions[r], w0.moves[r], p[r], moves[r], w0.deadlines[r], sw);
    }
  }

  lemma CoveredFinish(deadlines: map<nat, nat>, p: map<nat, Pos>, pending: seq<nat>, to: nat)
    requires PendingOk(deadlines, p, pending, to)
    requires forall r :: r in p ==> r in deadlines && to < deadlines[r]
    ensures Covered(deadlines, p, pending, to)
    ensures forall r :: r in pending <==> r in deadlines && deadlines[r] <= to
  {
  }

  lemma MovesFinish(w0: Wheel, w: Wheel)
    requires MovesBounded(w0.slots.positions, w0.moves, w0.born) && AllMovedAtMostOnce(w0, w)
    ensures MovesBounded(w.slots.positions, w.moves, w0.born)
  {
    forall r | r in w.slots.positions
      ensures r in w.moves && r in w0.born
      ensures w0.born[r] <= 2 ==> w.moves[r] + w.slots.positions[r].level <= w0.born[r]
    {
      assert r in w0.slots.positions;
    }
  }

  lemma NoMoves(w: Wheel)
    requires WellFormed(w)
    ensures AllMovedAtMostOnce(w, w)
  {
  }

  lemma MovesFrom(w0: Wheel, v: Wheel, w: Wheel)
    requires AllMovedAtMostOnce(v, w) && v.slots.positions == w0.slots.positions && v.moves == w0.moves
    ensures AllMovedAtMostOnce(w0, w)
  {
  }

  lemma SameMoves(w0: Wheel, w: Wheel, w': Wheel)
    requires AllMovedAtMostOnce(w0, w) && w'.slots.positions == w.slots.positions && w'.moves == w.moves
    ensures AllMovedAtMostOnce(w0, w')
  {
  }
}
