/**
 * The sensor collection store of src/storage/registry.ts: one ordered list of placed
 * sensors kept under one key of the device's key-value store, read fail-open and
 * always written back whole.
 */
module Registry {
  import opened Domain

  /** The key the sensor list is stored under. */
  const Key: string := "placed_sensors_v1"

  /**
   * What the key-value store holds under `Key`, as `loadSensors` sees it: nothing (or
   * empty text), text that is not JSON, JSON that is not an array, or a stored list.
   */
  datatype Slot = Absent | Unparsable | NotAnArray | Stored(sensors: seq<PlacedSensor>)

  /** `current.map(s => s.id == updated.id ? updated : s)`. */
  function ReplaceById(current: seq<PlacedSensor>, updated: PlacedSensor): (r: seq<PlacedSensor>)
    ensures |r| == |current|
  {
    if current == [] then []
    else [if current[0].id == updated.id then updated else current[0]] + ReplaceById(current[1..], updated)
  }

  /** `current.filter(s => s.id != id)`. */
  function RemoveById(current: seq<PlacedSensor>, id: string): (r: seq<PlacedSensor>)
    ensures |r| <= |current|
    ensures forall x :: x in r ==> x in current && x.id != id
  {
    if current == [] then []
    else if current[0].id != id then [current[0]] + RemoveById(current[1..], id)
    else RemoveById(current[1..], id)
  }

  /** The number of entries of `s` whose id is `id`. */
  function CountId(s: seq<PlacedSensor>, id: string): nat
  {
    if s == [] then 0 else (if s[0].id == id then 1 else 0) + CountId(s[1..], id)
  }

  /** `a` is `b` with some entries left out and the rest in their original order. */
  predicate IsSubsequence(a: seq<PlacedSensor>, b: seq<PlacedSensor>)
  {
    a == [] || (b != [] && ((a[0] == b[0] && IsSubsequence(a[1..], b[1..])) || IsSubsequence(a, b[1..])))
  }

  // ---------------------------------------------------------------------------
  // Properties of the update transform

  /** Position by position, an update replaces exactly the entries carrying the updated id. */
  lemma {:induction false} ReplaceByIdAt(current: seq<PlacedSensor>, updated: PlacedSensor, i: nat)
    requires i < |current|
    ensures ReplaceById(current, updated)[i] == if current[i].id == updated.id then updated else current[i]
  {
    if i > 0 {
      ReplaceByIdAt(current[1..], updated, i - 1);
    }
  }

  /** Updating an id the list does not hold changes nothing. */
  lemma {:induction false} ReplaceByIdUnknown(current: seq<PlacedSensor>, updated: PlacedSensor)
    requires !HasId(current, updated.id)
    ensures ReplaceById(current, updated) == current
  {
    if current != [] {
      assert !HasId(current[1..], updated.id) by {
        forall i | 0 <= i < |current[1..]| ensures current[1..][i].id != updated.id {
          assert current[1..][i] == current[i + 1];
        }
      }
      ReplaceByIdUnknown(current[1..], updated);
    }
  }

  /** An update keeps every position's id, so a list with distinct ids keeps them distinct. */
  lemma ReplaceByIdKeepsIds(current: seq<PlacedSensor>, updated: PlacedSensor)
    ensures forall i :: 0 <= i < |current| ==> ReplaceById(current, updated)[i].id == current[i].id
    ensures UniqueIds(current) ==> UniqueIds(ReplaceById(current, updated))
  {
  }

  // ---------------------------------------------------------------------------
  // Properties of the remove transform

  /** The survivors of a removal are exactly the entries whose id differs. */
  lemma {:induction false} RemoveByIdMembers(current: seq<PlacedSensor>, id: string, x: PlacedSensor)
    ensures x in RemoveById(current, id) <==> x in current && x.id != id
  {
    if current != [] {
      RemoveByIdMembers(current[1..], id, x);
      assert x in current <==> x == current[0] || x in current[1..];
    }
  }

  /** After a removal no entry carries the removed id. */
  lemma RemoveByIdNoneLeft(current: seq<PlacedSensor>, id: string)
    ensures !HasId(RemoveById(current, id), id)
  {
  }

  /** Removing an id the list does not hold changes nothing. */
  lemma {:induction false} RemoveByIdUnknown(current: seq<PlacedSensor>, id: string)
    requires !HasId(current, id)
    ensures RemoveById(current, id) == current
  {
    if current != [] {
      assert current[0].id != id;
      assert !HasId(current[1..], id) by {
        forall i | 0 <= i < |current[1..]| ensures current[1..][i].id != id {
          assert current[1..][i] == current[i + 1];
        }
      }
      RemoveByIdUnknown(current[1..], id);
      assert current == [current[0]] + current[1..];
    }
  }

  /** A removal filters each part of a list separately: it never reorders across parts. */
  lemma {:induction false} RemoveByIdConcat(a: seq<PlacedSensor>, b: seq<PlacedSensor>, id: string)
    ensures RemoveById(a + b, id) == RemoveById(a, id) + RemoveById(b, id)
  {
    if a != [] {
      assert (a + b)[0] == a[0];
      assert (a + b)[1..] == a[1..] + b;
      RemoveByIdConcat(a[1..], b, id);
    } else {
      assert a + b == b;
    }
  }

  /** The survivors of a removal keep their relative order. */
  lemma {:induction false} RemoveByIdOrdered(current: seq<PlacedSensor>, id: string)
    ensures IsSubsequence(RemoveById(current, id), current)
  {
    if current != [] {
      RemoveByIdOrdered(current[1..], id);
      var r := RemoveById(current, id);
      if current[0].id != id {
        assert r[0] == current[0] && r[1..] == RemoveById(current[1..], id);
      }
    }
  }

  /** A removal drops exactly as many entries as carry the id. */
  lemma {:induction false} RemoveByIdCount(current: seq<PlacedSensor>, id: string)
    ensures |RemoveById(current, id)| == |current| - CountId(current, id)
  {
    if current != [] {
      RemoveByIdCount(current[1..], id);
    }
  }

  /** Removal keeps a list with distinct ids distinct. */
  lemma {:induction false} RemoveByIdKeepsUnique(current: seq<PlacedSensor>, id: string)
    requires UniqueIds(current)
    ensures UniqueIds(RemoveById(current, id))
  {
    if current != [] {
      var tail := current[1..];
      assert UniqueIds(tail) by {
        forall i, j | 0 <= i < j < |tail| ensures tail[i].id != tail[j].id {
          assert tail[i] == current[i + 1] && tail[j] == current[j + 1];
        }
      }
      RemoveByIdKeepsUnique(tail, id);
      if current[0].id != id {
        var rest := RemoveById(tail, id);
        assert !HasId(rest, current[0].id) by {
          forall k | 0 <= k < |rest| ensures rest[k].id != current[0].id {
            assert rest[k] in rest;
            RemoveByIdMembers(tail, id, rest[k]);
            var m :| 0 <= m < |tail| && tail[m] == rest[k];
            assert tail[m] == current[m + 1];
          }
        }
      }
    }
  }

  /** Prepending keeps the ids distinct exactly when the new id is not already in use. */
  lemma PrependUnique(current: seq<PlacedSensor>, newSensor: PlacedSensor)
    ensures UniqueIds([newSensor] + current) <==> UniqueIds(current) && !HasId(current, newSensor.id)
  {
    var next := [newSensor] + current;
    if UniqueIds(next) {
      forall i | 0 <= i < |current| ensures current[i].id != newSensor.id {
        assert next[0] == newSensor && next[i + 1] == current[i];
      }
      forall i, j | 0 <= i < j < |current| ensures current[i].id != current[j].id {
        assert next[i + 1] == current[i] && next[j + 1] == current[j];
      }
    }
  }

  // ---------------------------------------------------------------------------
  // The store

  /**
   * The persisted sensor list, the value stored under `Key`; every operation re-reads
   * the slot and writes it back whole.
   */
  class SensorStore {
    /** What the key-value store holds under `Key`. */
    var slot: Slot

    constructor (initial: Slot)
      ensures slot == initial
    {
      slot := initial;
    }

    /** The list a load returns in the current state. */
    function Contents(): seq<PlacedSensor>
      reads this
    {
      if slot.Stored? then slot.sensors else []
    }

    /** `loadSensors`: the stored list, or the empty list for missing or malformed data. */
    method Load() returns (sensors: seq<PlacedSensor>)
      ensures slot.Stored? ==> sensors == slot.sensors
      ensures !slot.Stored? ==> sensors == []
      ensures sensors == Contents()
    {
      match slot
      case Absent => sensors := [];
      case Unparsable => sensors := [];
      case NotAnArray => sensors := [];
      case Stored(s) => sensors := s;
    }

    /** `saveSensors`: overwrite the slot with the whole list. */
    method Save(sensors: seq<PlacedSensor>)
      modifies this
      ensures slot == Stored(sensors)
      ensures Contents() == sensors
    {
      slot := Stored(sensors);
    }

    /** `addSensor`: put the new sensor first, keep the rest in order, persist and return the list. */
    method Add(newSensor: PlacedSensor) returns (next: seq<PlacedSensor>)
      modifies this
      ensures |next| == |old(Contents())| + 1
      ensures next[0] == newSensor && next[1..] == old(Contents())
      ensures slot == Stored(next)
    {
      var current := Load();
      next := [newSensor] + current;
      Save(next);
    }

    /** `updateSensor`: replace every entry carrying the updated id, persist and return the list. */
    method Update(updated: PlacedSensor) returns (next: seq<PlacedSensor>)
      modifies this
      ensures |next| == |old(Contents())|
      ensures forall i :: 0 <= i < |next| ==>
        next[i] == if old(Contents())[i].id == updated.id then updated else old(Contents())[i]
      ensures !HasId(old(Contents()), updated.id) ==> next == old(Contents())
      ensures slot == Stored(next)
    {
      var current := Load();
      next := ReplaceById(current, updated);
      forall i | 0 <= i < |next|
        ensures next[i] == if current[i].id == updated.id then updated else current[i]
      {
        ReplaceByIdAt(current, updated, i);
      }
      if !HasId(current, updated.id) {
        ReplaceByIdUnknown(current, updated);
      }
      Save(next);
    }

    /** `removeSensor`: drop every entry carrying `id`, persist and return the list. */
    method Remove(id: string) returns (next: seq<PlacedSensor>)
      modifies this
      ensures next == RemoveById(old(Contents()), id)
      ensures !HasId(next, id) && IsSubsequence(next, old(Contents()))
      ensures |next| == |old(Contents())| - CountId(old(Contents()), id)
      ensures !HasId(old(Contents()), id) ==> next == old(Contents())
      ensures slot == Stored(next)
    {
      var current := Load();
      next := RemoveById(current, id);
      RemoveByIdNoneLeft(current, id);
      RemoveByIdOrdered(current, id);
      RemoveByIdCount(current, id);
      if !HasId(current, id) {
        RemoveByIdUnknown(current, id);
      }
      Save(next);
    }
  }
}
