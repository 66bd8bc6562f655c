/**
 An offset window of optional values, the representation shared by `VecMap` and `Slab`:
 key `k` lives at index `k - offset`.
 */
module Window {
  import opened Options

  /** What the window holds for key `k`. */
  function At<V>(inner: seq<Option<V>>, offset: nat, k: nat): Option<V>
  {
    if offset <= k < offset + |inner| then inner[k - offset] else None
  }

  /** The finite map a window stands for. */
  ghost function ViewOf<V>(inner: seq<Option<V>>, offset: nat): map<nat, V>
  {
    map k | offset <= k < offset + |inner| && At(inner, offset, k).Some? :: At(inner, offset, k).value
  }

  ghost function Occupancy<V>(inner: seq<Option<V>>): nat
  {
    if inner == [] then 0
    else Occupancy(inner[..|inner| - 1]) + if inner[|inner| - 1].Some? then 1 else 0
  }

  function Nones<V>(n: nat): (r: seq<Option<V>>)
    ensures |r| == n && forall j :: 0 <= j < n ==> r[j] == None
  {
    seq(n, _ => None)
  }

  lemma {:induction false} OccupancyUpdate<V>(inner: seq<Option<V>>, i: nat, v: Option<V>)
    requires i < |inner|
    ensures Occupancy(inner[i := v])
      == Occupancy(inner) + (if v.Some? then 1 else 0) - (if inner[i].Some? then 1 else 0)
  {
    var m := |inner| - 1;
    if i == m {
      assert inner[i := v][..m] == inner[..m];
    } else {
      assert inner[i := v][..m] == inner[..m][i := v];
      OccupancyUpdate(inner[..m], i, v);
    }
  }

  /** The window holds exactly as many occupied slots as its map has keys. */
  lemma {:induction false} OccupancyIsCardinality<V>(inner: seq<Option<V>>, offset: nat)
    ensures Occupancy(inner) == |ViewOf(inner, offset)|
  {
    if inner != [] {
      var m := |inner| - 1;
      OccupancyIsCardinality(inner[..m], offset);
      var small, big := ViewOf(inner[..m], offset), ViewOf(inner, offset);
      if inner[m].Some? {
        assert big == small[offset + m := inner[m].value];
      } else {
        assert big == small;
      }
    }
  }

  /** Empty slots in front, with the offset lowered to match, change nothing. */
  lemma ViewPrepend<V>(inner: seq<Option<V>>, offset: nat, n: nat)
    requires n <= offset
    ensures ViewOf(Nones(n) + inner, offset - n) == ViewOf(inner, offset)
  {
    var padded: seq<Option<V>> := Nones(n) + inner;
    forall k: nat
      ensures At(padded, offset - n, k) == At(inner, offset, k)
    {
    }
  }

  lemma ViewAppend<V>(inner: seq<Option<V>>, offset: nat, n: nat)
    ensures ViewOf(inner + Nones(n), offset) == ViewOf(inner, offset)
  {
  }

  lemma ViewSet<V>(inner: seq<Option<V>>, offset: nat, rel: nat, v: V)
    requires rel < |inner|
    ensures ViewOf(inner[rel := Some(v)], offset) == ViewOf(inner, offset)[offset + rel := v]
  {
  }

  lemma ViewClear<V>(inner: seq<Option<V>>, offset: nat, rel: nat)
    requires rel < |inner|
    ensures ViewOf(inner[rel := None], offset) == ViewOf(inner, offset) - {offset + rel}
  {
  }

  /** `Vec::rotate_right`. */
  function RotateRight<T>(s: seq<T>, n: nat): seq<T>
    requires n <= |s|
  {
    s[|s| - n..] + s[..|s| - n]
  }

  /** Growing at the back and rotating right is growing at the front. */
  lemma RotateGrows<V>(inner: seq<Option<V>>, n: nat)
    ensures RotateRight(inner + Nones(n), n) == Nones(n) + inner
  {
  }
}
