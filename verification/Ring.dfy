/**
 Arithmetic of the hierarchical wheel: `t >> 8*level` is division by 256^level and
 `& 0xff` is the remainder modulo 256.
 */
module Ring {
  const LEVELS: nat := 4
  const SLOTS: nat := 256

  function Shift(t: nat, level: nat): nat
    requires level < LEVELS
  {
    if level == 0 then t
    else if level == 1 then t / 256
    else if level == 2 then t / 65536
    else t / 16777216
  }

  /** 256^(level+1): one full rotation of a level. */
  function Width(level: nat): nat
    requires level < LEVELS
  {
    if level == 0 then 256
    else if level == 1 then 65536
    else if level == 2 then 16777216
    else 4294967296
  }

  function SlotOf(t: nat, level: nat): (s: nat)
    requires level < LEVELS
    ensures s < SLOTS
  {
    Shift(t, level) % SLOTS
  }

  /** The level a timer `delta` away from the clock is placed at. */
  function LevelOf(delta: nat): (level: nat)
    ensures level < LEVELS
    ensures level < 3 ==> delta < Width(level)
    ensures 0 < level ==> Width(level - 1) <= delta
  {
    if delta < 256 then 0
    else if delta < 65536 then 1
    else if delta < 16777216 then 2
    else 3
  }

  /** Ring steps (1 to 256) from the current slot `cur` forward to `slot`. */
  function Off(slot: nat, cur: nat): (o: nat)
    ensures 1 <= o <= SLOTS
  {
    var k := (slot - cur) % SLOTS;
    if k == 0 then SLOTS else k
  }

  /**
   A timer with deadline `d` may sit in `slot` of `level` while the clock shows `e`:
   its shifted deadline lies strictly ahead, names that slot, and, except on the last
   level, is less than one rotation away.
   */
  predicate Placed(level: nat, slot: nat, d: nat, e: nat)
    requires level < LEVELS
  {
    && Shift(e, level) < Shift(d, level)
    && slot == SlotOf(d, level)
    && (level < 3 ==> d < e + Width(level))
  }

  lemma PlacedAhead(level: nat, slot: nat, d: nat, e: nat)
    requires level < LEVELS && Placed(level, slot, d, e)
    ensures e < d
  {
  }

  lemma ShiftMonotone(a: nat, b: nat, level: nat)
    requires level < LEVELS && a <= b
    ensures Shift(a, level) <= Shift(b, level)
  {
  }

  lemma PlaceFresh(d: nat, now: nat)
    requires now < d
    ensures Placed(LevelOf(d - now), SlotOf(d, LevelOf(d - now)), d, now)
  {
  }

  lemma OffVisits(cur: nat, o: nat)
    requires cur < SLOTS && 1 <= o <= SLOTS
    ensures Off((cur + o) % SLOTS, cur) == o
  {
  }

  lemma OffInjective(s: nat, t: nat, cur: nat)
    requires s < SLOTS && t < SLOTS && cur < SLOTS && Off(s, cur) == Off(t, cur)
    ensures s == t
  {
  }

  /** Below the last level the ring offset is the shifted distance itself. */
  lemma RingDistance(level: nat, slot: nat, d: nat, e: nat)
    requires level < LEVELS && Placed(level, slot, d, e)
    ensures Off(slot, SlotOf(e, level)) <= Shift(d, level) - Shift(e, level)
    ensures level < 3 ==> Shift(d, level) - Shift(e, level) == Off(slot, SlotOf(e, level))
  {
    var a, b := Shift(d, level), Shift(e, level);
    if level < 3 {
      assert a - b <= 256;
    }
  }

  /** A timer outside the slots the clock sweeps over stays correctly placed. */
  lemma StaysPlaced(level: nat, slot: nat, d: nat, e: nat, now: nat)
    requires level < LEVELS && Placed(level, slot, d, e) && e <= now
    requires Shift(now, level) - Shift(e, level) < Off(slot, SlotOf(e, level))
    ensures Placed(level, slot, d, now)
  {
    RingDistance(level, slot, d, e);
  }

  /**
   A timer in a swept slot that is not due: on levels 1 and 2 it is re-placed strictly
   lower, on level 3 strictly lower or in the very same slot, and on level 0 there is none.
   */
  lemma CascadeDescends(level: nat, slot: nat, d: nat, e: nat, now: nat)
    requires level < LEVELS && Placed(level, slot, d, e) && e <= now < d
    requires Off(slot, SlotOf(e, level)) <= Shift(now, level) - Shift(e, level)
    ensures 0 < level
    ensures level < 3 ==> LevelOf(d - now) < level
    ensures LevelOf(d - now) == level ==> SlotOf(d, level) == slot
  {
    RingDistance(level, slot, d, e);
    ShiftMonotone(now, d, level);
  }
}
