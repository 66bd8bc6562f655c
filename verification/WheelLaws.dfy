/** What well-formedness of the timer wheel amounts to: conservation and the cascade bound. */
module WheelLaws {
  import opened Ring
  import opened Seqs
  import opened WheelModel

  lemma {:induction false} DistinctCount(s: seq<nat>)
    requires Distinct(s)
    ensures |Members(s)| == |s|
  {
    if s == [] {
      assert Members(s) == {};
    } else {
      var last := s[|s| - 1];
      var rest := s[..|s| - 1];
      assert s == rest + [last];
      DistinctCount(rest);
      assert Members(s) == Members(rest) + {last};
      assert last !in Members(rest);
    }
  }

  lemma DisjointUnion(a: map<nat, nat>, b: map<nat, Pos>, s: seq<nat>)
    requires Distinct(s)
    requires forall r :: r in a ==> r in b || r in s
    requires forall r :: r in b ==> r in a
    requires forall r :: r in s ==> r in a && r !in b
    ensures |a| == |b| + |s|
  {
    DistinctCount(s);
    assert a.Keys == b.Keys + Members(s);
    assert b.Keys !! Members(s);
    assert |a.Keys| == |b.Keys| + |Members(s)|;
  }

  /**
   Conservation: every live timer is in exactly one slot or pending exactly once, and the
   four level counters add up to the timers still in the wheel.
   */
  lemma Conservation(w: Wheel)
    requires WellFormed(w) && Tight(w)
    ensures |w.deadlines| == |w.slots.positions| + |w.pending|
    ensures w.slots.counts[0] + w.slots.counts[1] + w.slots.counts[2] + w.slots.counts[3] == |w.slots.positions|
    ensures forall l :: 0 <= l < LEVELS ==> w.slots.counts[l] == SlotsLen(w.slots.levels[l])
  {
    hide Linked, MinValid, MovesBounded, Placed, SlotsLen;
    DisjointUnion(w.deadlines, w.slots.positions, w.pending);
  }

  /** An id occurs at most once in all the slots of the wheel. */
  lemma NoDuplicates(w: Wheel, l: nat, s: nat, i: nat, l': nat, s': nat, i': nat)
    requires WellFormed(w)
    requires l < LEVELS && s < SLOTS && i < |w.slots.levels[l][s]|
    requires l' < LEVELS && s' < SLOTS && i' < |w.slots.levels[l'][s']|
    requires w.slots.levels[l][s][i] == w.slots.levels[l'][s'][i']
    ensures l == l' && s == s' && i == i'
  {
    assert w.slots.positions[w.slots.levels[l][s][i]] == Pos(l, s, i);
    assert w.slots.positions[w.slots.levels[l'][s'][i']] == Pos(l', s', i');
  }

  /** A timer placed on level 2 or below is re-placed at most as often as its first level. */
  lemma CascadeBound(w: Wheel, r: nat)
    requires WellFormed(w) && r in w.slots.positions
    ensures r in w.moves && r in w.born
    ensures w.born[r] <= 2 ==> w.moves[r] <= w.born[r] - w.slots.positions[r].level
  {
  }
}
