/**
 Runs of the timer wheel as its callers see them: a map from timer id to deadline, with
 insert, remove and drain-at-now. The wheel's methods take exactly these steps.
 */
module TimerRuns {
  datatype Op = Insert(r: nat, d: nat) | Remove(r: nat) | Drain(now: nat)

  type Timers = map<nat, nat>

  /** The ids due at `now`. */
  function Due(m: Timers, now: nat): set<nat>
  {
    set r | r in m && m[r] <= now
  }

  function Step(m: Timers, op: Op): Timers
  {
    match op
    case Insert(r, d) => m[r := d]
    case Remove(r) => m - {r}
    case Drain(now) => m - Due(m, now)
  }

  function Timeline(ops: seq<Op>): Timers
  {
    if ops == [] then map[] else Step(Timeline(ops[..|ops| - 1]), ops[|ops| - 1])
  }

  /** `r` fires in operation `i` of the run. */
  predicate Fires(ops: seq<Op>, i: nat, r: nat)
    requires i < |ops|
  {
    ops[i].Drain? && r in Due(Timeline(ops[..i]), ops[i].now)
  }

  /** Operation `k` ends the life that `r` began with deadline `d`. */
  predicate Ends(op: Op, r: nat, d: nat)
  {
    match op
    case Insert(r', _) => r' == r
    case Remove(r') => r' == r
    case Drain(now) => d <= now
  }

  /** Operation `j` inserted `r` and nothing before `i` removed, re-inserted or fired it. */
  predicate Armed(ops: seq<Op>, j: nat, i: nat, r: nat)
    requires j < i <= |ops|
  {
    && ops[j].Insert? && ops[j].r == r
    && forall k :: j < k < i ==> !Ends(ops[k], r, ops[j].d)
  }

  /** A timer is in the map exactly when its latest insertion has not ended. */
  lemma {:induction false} LiveIffArmed(ops: seq<Op>, i: nat, r: nat)
    requires i <= |ops|
    ensures r in Timeline(ops[..i]) <==> exists j :: 0 <= j < i && Armed(ops, j, i, r)
    ensures forall j :: 0 <= j < i && Armed(ops, j, i, r) ==>
      r in Timeline(ops[..i]) && Timeline(ops[..i])[r] == ops[j].d
  {
    if i > 0 {
      LiveIffArmed(ops, i - 1, r);
      assert ops[..i][..i - 1] == ops[..i - 1];
      forall j | 0 <= j < i
        ensures Armed(ops, j, i, r) <==>
          if j == i - 1 then ops[j].Insert? && ops[j].r == r
          else Armed(ops, j, i - 1, r) && !Ends(ops[i - 1], r, ops[j].d)
      {
      }
      var m := Timeline(ops[..i - 1]);
      if r in Timeline(ops[..i]) {
        if ops[i - 1].Insert? && ops[i - 1].r == r {
          assert Armed(ops, i - 1, i, r);
        } else {
          var j :| 0 <= j < i - 1 && Armed(ops, j, i - 1, r);
          assert Armed(ops, j, i, r);
        }
      }
    }
  }

  /**
   A timer fires in a drain exactly when that drain is the first to reach the deadline of
   its latest insertion and nothing removed or re-inserted it in between: never early,
   never late, never without an insertion.
   */
  lemma FiresExactlyWhenDue(ops: seq<Op>, i: nat, r: nat)
    requires i < |ops|
    ensures Fires(ops, i, r) <==>
      ops[i].Drain? && exists j :: 0 <= j < i && Armed(ops, j, i, r) && ops[j].d <= ops[i].now
  {
    LiveIffArmed(ops, i, r);
  }

  /** Between two firings of one id lies an insertion of it. */
  lemma FiresOncePerInsertion(ops: seq<Op>, i: nat, i': nat, r: nat)
    requires i < i' < |ops| && Fires(ops, i, r) && Fires(ops, i', r)
    ensures exists j :: i < j < i' && ops[j].Insert? && ops[j].r == r
  {
    LiveIffArmed(ops, i, r);
    LiveIffArmed(ops, i', r);
    var j :| 0 <= j < i && Armed(ops, j, i, r);
    var j' :| 0 <= j' < i' && Armed(ops, j', i', r);
    if j' < i {
      if j < j' { assert Ends(ops[j'], r, ops[j].d); }
      if j' < j { assert Ends(ops[j], r, ops[j'].d); }
      assert Ends(ops[i], r, ops[j'].d);
    }
  }

  /** An inserted timer whose deadline a later drain reaches fires, unless cancelled first. */
  lemma {:induction false} FiresUnlessCancelled(ops: seq<Op>, j: nat, i: nat, r: nat) returns (k: nat)
    requires j < i < |ops| && ops[j].Insert? && ops[j].r == r
    requires ops[i].Drain? && ops[j].d <= ops[i].now
    requires forall k :: j < k < i && (ops[k].Insert? || ops[k].Remove?) ==> ops[k].r != r
    ensures j < k <= i && Fires(ops, k, r)
    ensures forall q :: j < q < k ==> !Fires(ops, q, r)
  {
    k := j + 1;
    while !Ends(ops[k], r, ops[j].d)
      invariant j < k <= i && Armed(ops, j, k, r)
      invariant forall q :: j < q < k ==> !Fires(ops, q, r)
      decreases i - k
    {
      LiveIffArmed(ops, k, r);
      k := k + 1;
    }
    LiveIffArmed(ops, k, r);
  }
}
