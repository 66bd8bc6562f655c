/** The key-indexed map behind the timer wheel's deadlines and positions. */
module VecMaps {
  import opened Options
  import opened Window

  class VecMap<V> {
    var inner: seq<Option<V>>
    var offset: nat
    var count: nat

    /** The map this object stands for. */
    ghost function View(): map<nat, V>
      reads this
    {
      ViewOf(inner, offset)
    }

    /** `count` is the number of occupied slots. */
    ghost predicate Valid()
      reads this
    {
      count == Occupancy(inner)
    }

    constructor ()
      ensures Valid() && View() == map[]
    {
      inner := [];
      offset := 0;
      count := 0;
    }

    method GrowFront(key: nat)
      requires key < offset
      modifies this
      ensures View() == old(View()) && (old(Valid()) ==> Valid())
      ensures offset == key
    {
      var extra := offset - key;
      OccupancyIsCardinality(inner, offset);
      ViewPrepend(inner, offset, extra);
      OccupancyIsCardinality(Nones(extra) + inner, key);
      var newInner: seq<Option<V>> := Nones(extra);
      newInner := newInner + inner;
      inner := newInner;
      offset := key;
    }

    method EnsureSlot(rel: nat)
      modifies this`inner
      ensures View() == old(View()) && (old(Valid()) ==> Valid())
      ensures rel < |inner|
    {
      if rel >= |inner| {
        OccupancyIsCardinality(inner, offset);
        ViewAppend(inner, offset, rel + 1 - |inner|);
        OccupancyIsCardinality(inner + Nones(rel + 1 - |inner|), offset);
        inner := inner + Nones(rel + 1 - |inner|);
      }
    }

    method SetSlot(rel: nat, value: V)
      requires Valid() && rel < |inner|
      modifies this`inner, this`count
      ensures Valid() && View() == old(View())[offset + rel := value]
    {
      OccupancyUpdate(inner, rel, Some(value));
      ViewSet(inner, offset, rel, value);
      if inner[rel] == None {
        count := count + 1;
      }
      inner := inner[rel := Some(value)];
    }

    method TakeAt(rel: nat) returns (result: Option<V>)
      requires Valid() && rel < |inner|
      modifies this`inner, this`count
      ensures Valid() && View() == old(View()) - {offset + rel}
      ensures result == old(inner[rel])
    {
      OccupancyUpdate(inner, rel, None);
      ViewClear(inner, offset, rel);
      result := inner[rel];
      inner := inner[rel := None];
      if result.Some? {
        count := count - 1;
      }
    }

    method Insert(key: nat, value: V)
      requires Valid()
      modifies this
      ensures Valid() && View() == old(View())[key := value]
    {
      if |inner| == 0 {
        offset := key;
        assert View() == old(View());
      } else if key < offset {
        GrowFront(key);
      }
      var rel := key - offset;
      EnsureSlot(rel);
      SetSlot(rel, value);
    }

    method Get(key: nat) returns (result: Option<V>)
      ensures result == if key in View() then Some(View()[key]) else None
    {
      if key < offset {
        return None;
      }
      var diff := key - offset;
      if diff >= |inner| {
        return None;
      }
      result := inner[diff];
    }

    method Remove(key: nat) returns (result: Option<V>)
      requires Valid()
      modifies this
      ensures Valid() && View() == old(View()) - {key}
      ensures result == if key in old(View()) then Some(old(View())[key]) else None
    {
      if key < offset {
        return None;
      }
      var diff := key - offset;
      if diff >= |inner| {
        return None;
      }
      result := TakeAt(diff);
    }

    method ContainsKey(key: nat) returns (result: bool)
      ensures result == (key in View())
    {
      if key < offset {
        return false;
      }
      var diff := key - offset;
      if diff >= |inner| {
        return false;
      }
      result := inner[diff].Some?;
    }

    method IsEmpty() returns (result: bool)
      requires Valid()
      ensures result <==> View() == map[]
    {
      OccupancyIsCardinality(inner, offset);
      result := count == 0;
    }
  }
}
