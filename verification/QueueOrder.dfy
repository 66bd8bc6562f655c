/** First in, first out: drains keep the order of the ids they move, and polls follow it. */
module QueueOrder {
  import opened ExecLog
  import opened ExecModel
  import opened BoundedWaiting

  // ---- what a drain keeps ----

  /**
   `kept` is what is left of `ids` without the unknown ones: entry `k` of it comes from
   index `at[k]`, these indices ascend, and they are all the indices of known ids.
   */
  ghost predicate Sifted(kept: seq<nat>, ids: seq<nat>, known: set<nat>, at: seq<nat>)
  {
    && |at| == |kept|
    && (forall j, k :: 0 <= j < k < |at| ==> at[j] < at[k])
    && (forall k :: 0 <= k < |at| ==> at[k] < |ids| && kept[k] == ids[at[k]])
    && (forall i :: 0 <= i < |ids| ==> (ids[i] in known <==> i in at))
  }

  /** `kept` has every known id as often as `ids` has it, and no other. */
  ghost predicate SameKnown(kept: seq<nat>, ids: seq<nat>, known: set<nat>)
  {
    forall t :: multiset(kept)[t] == if t in known then multiset(ids)[t] else 0
  }

  /** A drain keeps every known id as often as it was there, drops all others, and keeps the order. */
  lemma {:induction false} KeptIsSifted(ids: seq<nat>, known: set<nat>) returns (at: seq<nat>)
    ensures Sifted(Kept(ids, known), ids, known, at)
    ensures SameKnown(Kept(ids, known), ids, known)
  {
    if ids == [] {
      at := [];
    } else {
      var m := |ids| - 1;
      at := KeptIsSifted(ids[..m], known);
      assert ids == ids[..m] + [ids[m]];
      at := SiftMore(Kept(ids[..m], known), ids[..m], known, at, ids[m]);
    }
  }

  lemma KeptNext(ids: seq<nat>, i: nat, known: set<nat>)
    requires i < |ids|
    ensures Kept(ids[..i + 1], known) == Kept(ids[..i], known) + if ids[i] in known then [ids[i]] else []
  {
    assert ids[..i + 1][..i] == ids[..i];
  }

  lemma KeptNone(ids: seq<nat>, known: set<nat>)
    ensures Kept(ids[..0], known) == []
  {
  }

  lemma SiftMore(kept: seq<nat>, ids: seq<nat>, known: set<nat>, at: seq<nat>, t: nat) returns (at': seq<nat>)
    requires Sifted(kept, ids, known, at)
    ensures Sifted(kept + if t in known then [t] else [], ids + [t], known, at')
  {
    if t in known {
      at' := at + [|ids|];
      assert forall i :: i in at' <==> i in at || i == |ids|;
    } else {
      at' := at;
    }
  }

  // ---- standing ahead ----

  /** `a` stands in `q` before every `b`. */
  ghost predicate Ahead(q: seq<nat>, a: nat, b: nat)
  {
    exists i :: 0 <= i < |q| && q[i] == a && b !in q[..i]
  }

  lemma AheadConcat(u: seq<nat>, v: seq<nat>, a: nat, b: nat)
    ensures Ahead(u + v, a, b) <==> Ahead(u, a, b) || (b !in u && Ahead(v, a, b))
  {
    if Ahead(u, a, b) {
      var i :| 0 <= i < |u| && u[i] == a && b !in u[..i];
      assert (u + v)[i] == a && (u + v)[..i] == u[..i];
    } else if b !in u && Ahead(v, a, b) {
      var i :| 0 <= i < |v| && v[i] == a && b !in v[..i];
      assert (u + v)[|u| + i] == a && (u + v)[..|u| + i] == u + v[..i];
    }
    if Ahead(u + v, a, b) {
      var i :| 0 <= i < |u + v| && (u + v)[i] == a && b !in (u + v)[..i];
      if i < |u| {
        assert u[i] == a && (u + v)[..i] == u[..i];
      } else {
        assert v[i - |u|] == a && (u + v)[..i] == u + v[..i - |u|];
      }
    }
  }

  /** Whoever is in line stands ahead of whoever is not. */
  lemma PresentIsAhead(q: seq<nat>, a: nat, b: nat)
    requires a in q && b !in q
    ensures Ahead(q, a, b)
  {
    var i :| 0 <= i < |q| && q[i] == a;
  }

  lemma AheadSplits(u: seq<nat>, v: seq<nat>, w: seq<nat>, a: nat, b: nat)
    ensures Ahead(u + v + w, a, b)
      <==> Ahead(u, a, b) || (b !in u && (Ahead(v, a, b) || (b !in v && Ahead(w, a, b))))
  {
    AheadConcat(u + v, w, a, b);
    AheadConcat(u, v, a, b);
  }

  lemma {:induction false} KeptAhead(ids: seq<nat>, known: set<nat>, a: nat, b: nat)
    requires Ahead(ids, a, b) && a in known
    ensures Ahead(Kept(ids, known), a, b)
    decreases |ids|
  {
    var m := |ids| - 1;
    assert ids == ids[..m] + [ids[m]];
    AheadConcat(ids[..m], [ids[m]], a, b);
    var e := if ids[m] in known then [ids[m]] else [];
    AheadConcat(Kept(ids[..m], known), e, a, b);
    if Ahead(ids[..m], a, b) {
      KeptAhead(ids[..m], known, a, b);
    } else {
      assert e == [a] && e[..0] == [];
    }
  }

  /** Draining the part `v` of the line `u + v + w` keeps `a` ahead. */
  lemma DrainedAhead(u: seq<nat>, v: seq<nat>, w: seq<nat>, known: set<nat>, a: nat, b: nat)
    requires Ahead(u + v + w, a, b) && a in known
    ensures Ahead(u + Kept(v, known) + w, a, b)
  {
    AheadSplits(u, v, w, a, b);
    AheadSplits(u, Kept(v, known), w, a, b);
    if Ahead(v, a, b) { KeptAhead(v, known, a, b); }
  }

  /** Ids other than `b` may enter the line anywhere. */
  lemma InsertedAhead(u: seq<nat>, x: seq<nat>, v: seq<nat>, a: nat, b: nat)
    requires Ahead(u + v, a, b) && b !in x
    ensures Ahead(u + x + v, a, b)
  {
    AheadConcat(u, v, a, b);
    AheadSplits(u, x, v, a, b);
  }

  /** The head is polled: `a` itself, or somebody else who is not `b`. */
  lemma HeadAhead(q: seq<nat>, a: nat, b: nat)
    requires Ahead(q, a, b) && a != b
    ensures q != [] && q[0] != b && (q[0] != a ==> Ahead(q[1..], a, b))
  {
    var i :| 0 <= i < |q| && q[i] == a && b !in q[..i];
    if q[0] != a {
      assert q[1..][i - 1] == a;
      assert forall x :: x in q[1..][..i - 1] ==> x in q[..i];
      assert q[0] in q[..i];
    }
  }

  // ---- polls follow the queue ----

  /** From `from` on, no poll of `b` comes before a poll of `a`. */
  ghost predicate PolledFirst(l: Log, from: nat, a: nat, b: nat)
  {
    forall j :: from <= j < |l| && l[j].PollTask? && l[j].task == b ==> PolledSince(l[..j], from, a)
  }

  /** Whoever stands ahead in the replayed queue is polled first, whatever happens later. */
  lemma {:induction false} AheadIsPolledFirst(l: Log, n: nat, a: nat, b: nat)
    requires PollsOk(l) && n <= |l| && Ahead(Fifo(l[..n]), a, b) && a != b
    ensures PolledFirst(l, n, a, b)
    ensures PolledSince(l, n, a) || Ahead(Fifo(l), a, b)
    decreases |l|
  {
    var m := |l| - 1;
    if n == |l| {
      assert l[..n] == l;
    } else {
      assert l[..m][..n] == l[..n] && l == l[..m] + [l[m]];
      AheadIsPolledFirst(l[..m], n, a, b);
      Snoc(l[..m], l[m]);
      if PolledSince(l[..m], n, a) {
        PolledLater(l[..m], l, n, n, a);
      } else {
        NextAhead(Fifo(l[..m]), l[m], l[..m], a, b);
      }
      PolledFirstMore(l, n, a, b);
    }
  }

  lemma NextAhead(q: seq<nat>, e: Event, before: Log, a: nat, b: nat)
    requires q == Fifo(before) && Ahead(q, a, b) && PollOk(before, e) && a != b
    ensures e.PollTask? ==> e.task != b
    ensures (e.PollTask? && e.task == a) || Ahead(FifoStep(q, e), a, b)
  {
    match e
    case PollTask(t, _) =>
      HeadAhead(q, a, b);
      assert q == [t] + q[1..];
      RemoveHead(t, q[1..]);
    case Drain(_, ids) => AheadConcat(q, ids, a, b);
    case PopInjection(popped) => if popped.Some? { AheadConcat(q, [popped.value], a, b); }
    case _ =>
  }

  lemma PolledFirstMore(l: Log, n: nat, a: nat, b: nat)
    requires n < |l| && PolledFirst(l[..|l| - 1], n, a, b)
    requires l[|l| - 1].PollTask? && l[|l| - 1].task == b ==> PolledSince(l[..|l| - 1], n, a)
    ensures PolledFirst(l, n, a, b)
  {
    var m := |l| - 1;
    forall j | n <= j < |l| && l[j].PollTask? && l[j].task == b
      ensures PolledSince(l[..j], n, a)
    {
      if j < m {
        assert l[..m][j] == l[j] && l[..m][..j] == l[..j];
      }
    }
  }
}
