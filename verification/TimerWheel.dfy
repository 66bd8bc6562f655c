/** The hierarchical timer wheel, updated in place. */
module TimerWheels {
  import opened Options
  import opened Ring
  import opened WheelModel
  import opened WheelSlots
  import opened WheelSteps
  import opened WheelAdvance
  import opened WheelScan

  class TimerWheel {
    var levels: Levels
    var elapsed: nat
    var pending: seq<nat>
    var cachedMin: Option<nat>
    var deadlines: map<nat, nat>
    var positions: map<nat, Pos>
    var levelCounts: seq<nat>
    ghost var moves: map<nat, nat>
    ghost var born: map<nat, nat>

    ghost function State(): Wheel
      reads this
    {
      Wheel(Slots(levels, levelCounts, positions), elapsed, pending, cachedMin, deadlines, moves, born)
    }

    ghost predicate Valid()
      reads this
    {
      WellFormed(State())
    }

    constructor ()
      ensures Valid() && deadlines == map[] && elapsed == 0 && pending == [] && cachedMin == None
    {
      var rows: Levels := [];
      for l := 0 to LEVELS
        invariant |rows| == l
        invariant forall k :: 0 <= k < l ==> |rows[k]| == SLOTS && forall s :: 0 <= s < SLOTS ==> rows[k][s] == []
      {
        var row: seq<seq<nat>> := [];
        for s := 0 to SLOTS
          invariant |row| == s && forall k :: 0 <= k < s ==> row[k] == []
        {
          row := row + [[]];
        }
        rows := rows + [row];
      }
      forall l | 0 <= l < LEVELS
        ensures SlotsLen(rows[l]) == 0
      {
        SlotsLenZero(rows[l]);
      }
      levels := rows;
      elapsed := 0;
      pending := [];
      cachedMin := None;
      deadlines := map[];
      positions := map[];
      levelCounts := [0, 0, 0, 0];
      moves, born := map[], map[];
    }

    // ---- slots ----

    method SlotPush(level: nat, slot: nat, rid: nat)
      requires Shape(levels) && |levelCounts| == LEVELS && level < LEVELS && slot < SLOTS
      modifies this`levels, this`levelCounts
      ensures levels == SetSlot(old(levels), level, slot, old(levels)[level][slot] + [rid])
      ensures levelCounts == old(levelCounts)[level := old(levelCounts)[level] + 1]
    {
      levels := levels[level := levels[level][slot := levels[level][slot] + [rid]]];
      levelCounts := levelCounts[level := levelCounts[level] + 1];
    }

    method SlotSwapRemove(level: nat, slot: nat, idx: nat) returns (result: nat)
      requires Shape(levels) && |levelCounts| == LEVELS && level < LEVELS && slot < SLOTS
      requires idx < |levels[level][slot]| && 0 < levelCounts[level]
      modifies this`levels, this`levelCounts
      ensures result == old(levels)[level][slot][idx]
      ensures levels == SetSlot(old(levels), level, slot, SwapRemoved(old(levels)[level][slot], idx))
      ensures levelCounts == old(levelCounts)[level := old(levelCounts)[level] - 1]
    {
      levelCounts := levelCounts[level := levelCounts[level] - 1];
      result := levels[level][slot][idx];
      levels := levels[level := levels[level][slot := SwapRemoved(levels[level][slot], idx)]];
    }

    method SlotPop(level: nat, slot: nat)
      requires Shape(levels) && |levelCounts| == LEVELS && level < LEVELS && slot < SLOTS
      requires levels[level][slot] != [] && 0 < levelCounts[level]
      modifies this`levels, this`levelCounts
      ensures levels == SetSlot(old(levels), level, slot, ButLast(old(levels)[level][slot]))
      ensures levelCounts == old(levelCounts)[level := old(levelCounts)[level] - 1]
    {
      levelCounts := levelCounts[level := levelCounts[level] - 1];
      levels := levels[level := levels[level][slot := ButLast(levels[level][slot])]];
    }

    method SlotDrain(level: nat, slot: nat) returns (result: seq<nat>)
      requires Shape(levels) && |levelCounts| == LEVELS && level < LEVELS && slot < SLOTS
      requires |levels[level][slot]| <= levelCounts[level]
      modifies this`levels, this`levelCounts
      ensures result == old(levels)[level][slot]
      ensures levels == SetSlot(old(levels), level, slot, [])
      ensures levelCounts == old(levelCounts)[level := old(levelCounts)[level] - |result|]
    {
      result := levels[level][slot];
      levelCounts := levelCounts[level := levelCounts[level] - |result|];
      levels := levels[level := levels[level][slot := []]];
    }

    method WheelRemoveInner(rid: nat)
      requires SlotsOk(State().slots, [])
      modifies this`levels, this`levelCounts, this`positions
      ensures State() == old(State()).(slots := Removed(old(State().slots), rid))
    {
      hide SlotsOk, Shape, Removed;
      RemovalPlan(State().slots, rid);
      if rid in positions {
        var pos := positions[rid];
        positions := positions - {rid};
        var level, slot, idx := pos.level, pos.slot, pos.idx;
        if level < LEVELS && slot < SLOTS {
          var slotLen := |levels[level][slot]|;
          if slotLen > 0 {
            var last := slotLen - 1;
            if idx <= last {
              if idx < last {
                var swapped := levels[level][slot][last];
                var _ := SlotSwapRemove(level, slot, idx);
                positions := positions[swapped := pos];
              } else {
                SlotPop(level, slot);
              }
            }
          }
        }
      }
    }

    method WheelInsertInner(rid: nat, deadline: nat, clock: nat)
      requires Shape(levels) && |levelCounts| == LEVELS && clock <= deadline
      modifies this`levels, this`levelCounts, this`positions
      ensures State() == old(State()).(slots := Inserted(old(State().slots), rid, deadline, clock))
    {
      var level := LevelOf(deadline - clock);
      var slot := SlotOf(deadline, level);
      var idx := |levels[level][slot]|;
      SlotPush(level, slot, rid);
      positions := positions[rid := Pos(level, slot, idx)];
    }

    method InvalidateMin(deadline: nat)
      modifies this`cachedMin
      ensures cachedMin == Invalidated(old(cachedMin), deadline)
    {
      if cachedMin.Some? && deadline <= cachedMin.value {
        cachedMin := None;
      }
    }

    // ---- insert and remove ----

    method Insert(rid: nat, deadline: nat)
      requires Valid() && pending == [] && elapsed < deadline
      modifies this
      ensures Valid() && State() == AfterInsert(old(State()), rid, deadline)
      ensures deadlines == old(deadlines)[rid := deadline] && pending == [] && elapsed == old(elapsed)
    {
      hide WellFormed, SlotsOk, Shape, Removed, Inserted, AfterInsert, Invalidated;
      AfterInsertKeeps(State(), rid, deadline);
      AfterInsertUnfold(State(), rid, deadline);
      if rid in deadlines {
        InvalidateMin(deadlines[rid]);
      }
      WheelRemoveInner(rid);
      deadlines := deadlines[rid := deadline];
      WheelInsertInner(rid, deadline, elapsed);
      moves, born := moves[rid := 0], born[rid := LevelOf(deadline - elapsed)];
      if cachedMin.Some? && deadline < cachedMin.value {
        cachedMin := Some(deadline);
      }
    }

    method Remove(rid: nat)
      requires Valid() && pending == []
      modifies this
      ensures Valid() && State() == AfterRemove(old(State()), rid)
      ensures deadlines == old(deadlines) - {rid} && pending == [] && elapsed == old(elapsed)
    {
      hide WellFormed, SlotsOk, Removed;
      AfterRemoveKeeps(State(), rid);
      SlotsOfWellFormed(State());
      if rid in deadlines {
        InvalidateMin(deadlines[rid]);
        WheelRemoveInner(rid);
        deadlines := deadlines - {rid};
      }
    }

    // ---- advancing ----

    /** Drains the slot at ring offset `sw.i`: due timers become pending, others are re-placed. */
    method DrainSlot(ghost w0: Wheel, ghost sw: Sweep, level: nat, slot: nat, now: nat)
      requires Mid(w0, State(), sw, []) && level < LEVELS && 1 <= sw.i <= SLOTS
      requires sw.level == level && sw.to == now && sw.from <= now
      requires slot == (SlotOf(sw.from, level) + sw.i) % SLOTS
      requires sw.i <= Shift(now, level) - Shift(sw.from, level)
      modifies this`levels, this`levelCounts, this`pending, this`moves, this`positions
      ensures Mid(w0, State(), sw.(i := sw.i + 1), [])
    {
      hide Mid;
      MidTake(w0, State(), sw, slot);
      LevelsOfMid(w0, State(), sw, []);
      var slotVec := SlotDrain(level, slot);
      ghost var sw' := sw.(i := sw.i + 1);
      var j := 0;
      assert slotVec[0..] == slotVec;
      while j < |slotVec|
        invariant j <= |slotVec|
        invariant Mid(w0, State(), sw', slotVec[j..])
      {
        HandleDrained(w0, sw', slotVec[j..], slotVec[j], now);
        assert slotVec[j..][1..] == slotVec[j + 1..];
        j := j + 1;
      }
      assert slotVec[j..] == [];
    }

    /** One drained timer: due, it becomes pending; otherwise it is placed again. */
    method HandleDrained(ghost w0: Wheel, ghost sw: Sweep, ghost loose: seq<nat>, rid: nat, now: nat)
      requires Mid(w0, State(), sw, loose) && loose != [] && rid == loose[0]
      requires sw.to == now && sw.from <= now && sw.level < LEVELS
      requires sw.i <= Shift(now, sw.level) - Shift(sw.from, sw.level) + 1
      modifies this`levels, this`levelCounts, this`pending, this`moves, this`positions
      ensures Mid(w0, State(), sw, loose[1..])
    {
      hide Mid;
      LooseHead(w0, State(), sw, loose);
      if rid in deadlines {
        var deadline := deadlines[rid];
        if deadline <= now {
          MidExpire(w0, State(), sw, loose);
          positions := positions - {rid};
          pending := pending + [rid];
        } else {
          MidPlace(w0, State(), sw, loose);
          WheelInsertInner(rid, deadline, now);
          moves := moves[rid := moves[rid] + 1];
        }
      }
    }

    /** Sweeps the slots of one level that the clock passes on its way to `now`. */
    method DrainLevel(ghost w0: Wheel, ghost sw: Sweep, level: nat, now: nat)
      requires Mid(w0, State(), sw, []) && level < LEVELS
      requires sw == Sweep(elapsed, now, level, 1) && elapsed <= now
      modifies this`levels, this`levelCounts, this`pending, this`moves, this`positions
      ensures Mid(w0, State(), sw.(level := level + 1), [])
    {
      hide Mid, Shift;
      ShiftMonotone(elapsed, now, level);
      var diff := Shift(now, level) - Shift(elapsed, level);
      var slotsToDrain := if diff < SLOTS then diff else SLOTS;
      var oldSlot := SlotOf(elapsed, level);
      var i := 1;
      while i <= slotsToDrain
        invariant 1 <= i <= slotsToDrain + 1
        invariant Mid(w0, State(), sw.(i := i), [])
      {
        DrainSlot(w0, sw.(i := i), level, (oldSlot + i) % SLOTS, now);
        i := i + 1;
      }
      MidNextLevel(w0, State(), sw.(i := i));
    }

    /**
     Moves the clock to `now`: exactly the due timers become pending, nothing else changes
     for a caller, and each timer left in the wheel was re-placed at most once.
     */
    method AdvanceTo(now: nat)
      requires Valid() && pending == [] && elapsed <= now
      modifies this
      ensures Valid() && Tight(State())
      ensures deadlines == old(deadlines) && cachedMin == old(cachedMin) && elapsed == now && born == old(born)
      ensures forall r :: r in pending <==> r in deadlines && deadlines[r] <= now
      ensures AllMovedAtMostOnce(old(State()), State())
    {
      hide Mid, WellFormed, Shift;
      ghost var w0 := State();
      MidStart(w0, now);
      var done := false;
      var level := 0;
      while level < LEVELS && !done
        invariant level <= LEVELS
        invariant elapsed == w0.elapsed
        invariant Mid(w0, State(), Sweep(w0.elapsed, now, level, 1), [])
        invariant done ==> level < LEVELS && Shift(elapsed, level) == Shift(now, level)
        decreases LEVELS - level, !done
      {
        if Shift(elapsed, level) == Shift(now, level) {
          done := true;
        } else {
          DrainLevel(w0, Sweep(w0.elapsed, now, level, 1), level, now);
          level := level + 1;
        }
      }
      LevelsOfMid(w0, State(), Sweep(w0.elapsed, now, level, 1), []);
      MidFinish(w0, State(), Sweep(w0.elapsed, now, level, 1));
      elapsed := now;
    }

    // ---- firing ----

    /** Pops pending ids until one is live and due. */
    method PopPending(now: nat) returns (result: Option<nat>)
      requires Valid() && elapsed <= now
      modifies this`pending, this`cachedMin, this`deadlines, this`positions
      ensures Valid() && (old(Tight(State())) ==> Tight(State()))
      ensures State().slots == old(State().slots)
      ensures result == None ==> deadlines == old(deadlines) && pending == [] && cachedMin == old(cachedMin)
      ensures result.Some? ==>
        && result.value in old(deadlines) && old(deadlines)[result.value] <= now
        && deadlines == old(deadlines) - {result.value}
        && cachedMin == Invalidated(old(cachedMin), old(deadlines)[result.value])
      ensures old(pending) != [] && old(Tight(State())) ==>
        result == Some(Last(old(pending))) && pending == ButLast(old(pending))
    {
      hide WellFormed;
      while |pending| > 0
        invariant Valid() && State() == old(State()).(pending := pending)
        invariant pending == old(pending) || !old(Tight(State()))
        decreases |pending|
      {
        ghost var w := State();
        var rid := Last(pending);
        pending := ButLast(pending);
        if rid in deadlines {
          var deadline := deadlines[rid];
          AfterFireKeeps(w);
          if Tight(w) { AfterFireTight(w); }
          if deadline <= now {
            InvalidateMin(deadline);
            deadlines := deadlines - {rid};
            positions := positions - {rid};
            return Some(rid);
          }
        } else {
          SkipKeeps(w);
        }
      }
      return None;
    }

    method TryPopExpired(now: nat) returns (result: Option<nat>)
      requires Valid() && elapsed <= now
      modifies this
      ensures Valid() && (old(Tight(State())) ==> Tight(State()))
      ensures result.Some? ==>
        && result.value in old(deadlines) && old(deadlines)[result.value] <= now
        && deadlines == old(deadlines) - {result.value}
      ensures result == None ==>
        && deadlines == old(deadlines) && pending == [] && elapsed == now
        && (forall r :: r in deadlines ==> now < deadlines[r])
      ensures old(elapsed) <= elapsed <= now
      ensures AllMovedAtMostOnce(old(State()), State())
      ensures old(cachedMin) == None ==> cachedMin == None
    {
      hide WellFormed, Tight, AllMovedAtMostOnce;
      NoMoves(State());
      result := PopPending(now);
      if result.Some? {
        SameMoves(old(State()), old(State()), State());
        return;
      }
      if elapsed < now {
        SameMoves(old(State()), old(State()), State());
        ghost var v := State();
        AdvanceTo(now);
        MovesFrom(old(State()), v, State());
      }
      ghost var w := State();
      result := PopPending(now);
      SameMoves(old(State()), w, State());
      if result == None {
        NoneDue(State());
      }
    }

    // ---- the earliest deadline ----

    method IsEmpty() returns (r: bool)
      ensures r <==> deadlines == map[]
    {
      r := |deadlines| == 0;
    }

    method GetDeadline(rid: nat) returns (result: Option<nat>)
      ensures result == if rid in deadlines then Some(deadlines[rid]) else None
    {
      result := if rid in deadlines then Some(deadlines[rid]) else None;
    }

    /** The smallest deadline among the members of one slot. */
    method SlotScan(members: seq<nat>) returns (have: bool, best: nat)
      ensures have ==> SlotMin(State(), members, best)
      ensures !have ==> forall k :: 0 <= k < |members| ==> members[k] !in deadlines
    {
      have, best := false, 0;
      var idx := 0;
      while idx < |members|
        invariant idx <= |members|
        invariant have ==> exists k :: 0 <= k < idx && members[k] in deadlines && deadlines[members[k]] == best
        invariant forall k :: 0 <= k < idx && members[k] in deadlines ==> have && best <= deadlines[members[k]]
      {
        if members[idx] in deadlines {
          var d := deadlines[members[idx]];
          if !have || d < best {
            best, have := d, true;
          }
        }
        idx := idx + 1;
      }
    }

    /**
     The smallest deadline on a level below 3, in ring order with early exit. With a bound,
     None may also mean that the whole level exceeds it.
     */
    method ScanLevelMin(level: nat, bound: Option<nat>) returns (result: Option<nat>)
      requires Valid() && level < 3 && (bound.Some? ==> 1 <= level)
      ensures Candidate(State(), level, result, bound)
    {
      hide WellFormed, SlotsOk, Shape, Shift, AllPlaced, GapBefore, LevelMin, LevelBeyond, SlotMin;
      LevelsOfWellFormed(State());
      if levelCounts[level] == 0 {
        EmptyLevel(State(), level, bound);
        return None;
      }
      var cur := SlotOf(elapsed, level);
      GapStart(State(), level);
      var o := 1;
      while o <= SLOTS
        invariant 1 <= o <= SLOTS + 1
        invariant GapBefore(State(), level, o)
      {
        var slotVec := levels[level][(cur + o) % SLOTS];
        if slotVec != [] {
          if bound.Some? && Shift(bound.value, level) < Shift(elapsed, level) + o {
            GapBeyond(State(), level, o, bound.value);
            return None;
          }
          MembersLive(State(), level, (cur + o) % SLOTS);
          assert slotVec[0] in deadlines;
          if level == 0 && slotVec[0] in deadlines {
            LevelZeroSlot(State(), o);
            FirstSlotMin(State(), level, o, deadlines[slotVec[0]]);
            return Some(deadlines[slotVec[0]]);
          }
          var have, best := SlotScan(slotVec);
          if have {
            FirstSlotMin(State(), level, o, best);
            return Some(best);
          }
        } else {
          GapExtends(State(), level, o);
        }
        o := o + 1;
      }
      GapWhole(State(), level, bound);
      return None;
    }

    /** The smallest deadline on level 3, which has no ring order. */
    method ScanLevel3Min() returns (result: Option<nat>)
      requires Valid()
      ensures Candidate(State(), 3, result, None)
    {
      hide WellFormed, SlotsOk, Shape, AllPlaced, MinUpTo, LevelMin, LevelBeyond;
      LevelsOfWellFormed(State());
      if levelCounts[3] == 0 {
        EmptyLevel(State(), 3, None);
        return None;
      }
      result := None;
      MinUpToStart(State());
      var slot := 0;
      while slot < SLOTS
        invariant slot <= SLOTS && MinUpTo(State(), slot, result)
      {
        ghost var before := result;
        result := MergeSlot(levels[3][slot], result);
        MinUpToNext(State(), slot, before, result);
        slot := slot + 1;
      }
      MinUpToAll(State(), result);
    }

    method MergeSlot(members: seq<nat>, best: Option<nat>) returns (result: Option<nat>)
      ensures best.Some? ==> result.Some? && result.value <= best.value
      ensures result.Some? ==>
        || (best.Some? && result.value == best.value)
        || exists k :: 0 <= k < |members| && members[k] in deadlines && deadlines[members[k]] == result.value
      ensures forall k :: 0 <= k < |members| && members[k] in deadlines ==>
        result.Some? && result.value <= deadlines[members[k]]
    {
      result := best;
      var idx := 0;
      while idx < |members|
        invariant idx <= |members|
        invariant best.Some? ==> result.Some? && result.value <= best.value
        invariant result.Some? ==>
          || (best.Some? && result.value == best.value)
          || exists k :: 0 <= k < idx && members[k] in deadlines && deadlines[members[k]] == result.value
        invariant forall k :: 0 <= k < idx && members[k] in deadlines ==>
          result.Some? && result.value <= deadlines[members[k]]
      {
        if members[idx] in deadlines {
          result := MergeMin(result, deadlines[members[idx]]);
        }
        idx := idx + 1;
      }
    }

    method ScanWheelMin() returns (result: Option<nat>)
      requires Valid()
      ensures if result.Some? then IsMin(deadlines, result.value) else deadlines == map[]
    {
      hide WellFormed, Candidate, Merged;
      var pbest := MergeSlot(pending, None);
      if pbest.Some? {
        PendingFirst(State(), pbest.value);
        return pbest;
      }
      var c0 := ScanLevelMin(0, None);
      var c1 := ScanLevelMin(1, c0);
      var c2 := ScanLevelMin(2, c0);
      var c3 := ScanLevel3Min();
      CandidatesMerge(State(), c0, c1, c2, c3);
      result := Merged(c0, c1, c2, c3);
    }

    /** The earliest deadline of all live timers, or None exactly when there are none. */
    method NextDeadline() returns (result: Option<nat>)
      requires Valid()
      ensures if result.Some? then IsMin(deadlines, result.value) else deadlines == map[]
    {
      var empty := IsEmpty();
      if empty {
        return None;
      }
      if cachedMin.Some? {
        return cachedMin;
      }
      result := ScanWheelMin();
    }
  }
}
