/** The slab behind the resource table: an offset window that also grows at the front. */
module Slabs {
  import opened Options
  import opened Window

  class Slab<V> {
    var inner: seq<Option<V>>
    var offset: nat

    /** The map this object stands for. */
    ghost function View(): map<nat, V>
      reads this
    {
      ViewOf(inner, offset)
    }

    constructor ()
      ensures View() == map[]
    {
      inner := [];
      offset := 0;
    }

    /** Grows at the back, then rotates the new slots to the front. */
    method GrowFront(key: nat)
      requires key < offset
      modifies this
      ensures View() == old(View()) && offset == key
    {
      var extra := offset - key;
      ViewPrepend(inner, offset, extra);
      RotateGrows(inner, extra);
      inner := inner + Nones(extra);
      inner := RotateRight(inner, extra);
      offset := key;
    }

    method EnsureSlot(rel: nat)
      modifies this`inner
      ensures View() == old(View()) && rel < |inner|
    {
      if rel >= |inner| {
        ViewAppend(inner, offset, rel + 1 - |inner|);
        inner := inner + Nones(rel + 1 - |inner|);
      }
    }

    method SetSlot(rel: nat, value: V)
      requires rel < |inner|
      modifies this`inner
      ensures View() == old(View())[offset + rel := value]
    {
      ViewSet(inner, offset, rel, value);
      inner := inner[rel := Some(value)];
    }

    method TakeAt(rel: nat) returns (result: Option<V>)
      requires rel < |inner|
      modifies this`inner
      ensures View() == old(View()) - {offset + rel}
      ensures result == old(inner[rel])
    {
      ViewClear(inner, offset, rel);
      result := inner[rel];
      inner := inner[rel := None];
    }

    method Insert(key: nat, value: V)
      modifies this
      ensures View() == old(View())[key := value]
    {
      if |inner| == 0 {
        offset := key;
        assert View() == old(View());
      } else if key < offset {
        GrowFront(key);
      }
      var rel := key - offset;
      EnsureSlot(rel);
      SetSlot(rel, value);
    }

    method Get(key: nat) returns (result: Option<V>)
      ensures result == if key in View() then Some(View()[key]) else None
    {
      if key < offset {
        return None;
      }
      var diff := key - offset;
      if diff >= |inner| {
        return None;
      }
      result := inner[diff];
    }

    method Remove(key: nat) returns (result: Option<V>)
      modifies this
      ensures View() == old(View()) - {key}
      ensures result == if key in old(View()) then Some(old(View())[key]) else None
    {
      if key < offset {
        return None;
      }
      var diff := key - offset;
      if diff >= |inner| {
        return None;
      }
      result := TakeAt(diff);
    }
  }
}
