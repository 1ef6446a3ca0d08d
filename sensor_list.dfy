/**
 * The sensor-list screen of app/sensor_list.tsx: the list it shows, the add and edit
 * dialogs' name validation, and the add, edit and delete paths that write through the
 * sensor store.
 */
module SensorList {
  import opened Wrappers
  import opened Domain
  import opened JsText
  import Registry

  // ---------------------------------------------------------------------------
  // Sensor ids

  /** A character `Number.prototype.toString(36)` writes for a digit. */
  predicate IsBase36Char(c: char)
  {
    ('0' <= c <= '9') || ('a' <= c <= 'z')
  }

  /** The shape of every id `makeId` returns: at most 8 base-36 characters. */
  predicate IsGeneratedId(id: string)
  {
    |id| <= 8 && forall i :: 0 <= i < |id| ==> IsBase36Char(id[i])
  }

  /** True when every element of `digits` is a base-36 digit value. */
  predicate AreBase36Digits(digits: seq<nat>)
  {
    forall i :: 0 <= i < |digits| ==> digits[i] < 36
  }

  /** The characters base 36 writes for the digit values `digits`. */
  function Base36Text(digits: seq<nat>): (s: string)
    requires AreBase36Digits(digits)
    ensures |s| == |digits|
    ensures forall i :: 0 <= i < |s| ==> IsBase36Char(s[i])
  {
    if digits == [] then []
    else
      var d := digits[0];
      [if d < 10 then ('0' as int + d) as char else ('a' as int + d - 10) as char] + Base36Text(digits[1..])
  }

  /** `s.slice(start, end)` for non-negative bounds: clamped to the string, empty when reversed. */
  function Slice(s: string, start: nat, end: nat): (r: string)
    ensures start <= end <= |s| ==> r == s[start..end]
    ensures start <= |s| <= end ==> r == s[start..]
    ensures |s| <= start || end <= start ==> r == []
  {
    var lo := if start < |s| then start else |s|;
    var hi := if end < |s| then end else |s|;
    if lo <= hi then s[lo..hi] else []
  }

  /**
   * `makeId`: `Math.random().toString(36).slice(2, 10)`, given the base-36 digits of the
   * random draw after its point (`toString(36)` writes "0." before them, or just "0" for 0).
   */
  function MakeId(fraction: seq<nat>): (id: string)
    requires AreBase36Digits(fraction)
    ensures IsGeneratedId(id)
    ensures |id| == if |fraction| < 8 then |fraction| else 8
  {
    var text := if fraction == [] then "0" else "0." + Base36Text(fraction);
    var id := Slice(text, 2, 10);
    assert fraction != [] ==> id == Base36Text(fraction)[..|id|];
    id
  }

  /** Adding a sensor whose id is already in use leaves two entries sharing it: ids are not re-checked. */
  lemma AddKeepsDuplicateId(sensors: seq<PlacedSensor>, newSensor: PlacedSensor)
    requires HasId(sensors, newSensor.id)
    ensures !UniqueIds([newSensor] + sensors)
  {
    Registry.PrependUnique(sensors, newSensor);
  }

  // ---------------------------------------------------------------------------
  // The screen

  /** The screen's state: the list shown, the add and edit dialogs, and the store behind them. */
  class SensorListScreen {
    const store: Registry.SensorStore
    /** The list on display. */
    var sensors: seq<PlacedSensor>
    var addOpen: bool
    /** The text of the name field, shared by the add and edit dialogs. */
    var newName: string
    var editOpen: bool
    var editingSensor: Option<PlacedSensor>

    constructor (store: Registry.SensorStore)
      ensures this.store == store
      ensures sensors == [] && !addOpen && newName == [] && !editOpen && editingSensor == None
    {
      this.store := store;
      sensors := [];
      addOpen := false;
      newName := [];
      editOpen := false;
      editingSensor := None;
    }

    /** On mount: show what the store loads. */
    method Mount()
      modifies this
      ensures sensors == store.Contents()
      ensures addOpen == old(addOpen) && newName == old(newName)
      ensures editOpen == old(editOpen) && editingSensor == old(editingSensor)
    {
      var saved := store.Load();
      sensors := saved;
    }

    /** `openAdd`: clear the name field and open the add dialog. */
    method OpenAdd()
      modifies this
      ensures newName == [] && addOpen
      ensures sensors == old(sensors) && editOpen == old(editOpen) && editingSensor == old(editingSensor)
    {
      newName := [];
      addOpen := true;
    }

    /**
     * `confirmAdd`: a name that trims to nothing is ignored; otherwise a sensor with a fresh
     * id and the trimmed name goes first in the displayed list, which is saved whole.
     */
    method ConfirmAdd(fraction: seq<nat>) returns (added: bool)
      requires AreBase36Digits(fraction)
      modifies this, store
      ensures added <==> !IsBlank(old(newName))
      ensures !added ==> sensors == old(sensors) && store.slot == old(store.slot) && addOpen == old(addOpen)
      ensures added ==>
        && |sensors| == |old(sensors)| + 1
        && sensors[0] == PlacedSensor(MakeId(fraction), Trim(old(newName)))
        && sensors[1..] == old(sensors)
        && store.slot == Registry.Stored(sensors)
        && !addOpen
      ensures added ==> IsGeneratedId(sensors[0].id) && sensors[0].name != []
      ensures newName == old(newName) && editOpen == old(editOpen) && editingSensor == old(editingSensor)
    {
      var name := Trim(newName);
      TrimEmptyIffBlank(newName);
      if name == [] {
        return false;
      }

      var newSensor := PlacedSensor(MakeId(fraction), name);

      var next := [newSensor] + sensors;
      sensors := next;
      store.Save(next);
      addOpen := false;
      added := true;
    }

    /** `openEdit`: remember the sensor, prefill its name and open the edit dialog. */
    method OpenEdit(sensor: PlacedSensor)
      modifies this
      ensures editingSensor == Some(sensor) && newName == sensor.name && editOpen
      ensures sensors == old(sensors) && addOpen == old(addOpen)
    {
      editingSensor := Some(sensor);
      newName := sensor.name;
      editOpen := true;
    }

    /**
     * `confirmEdit`: with a non-blank name and a sensor being edited, store that sensor
     * renamed to the trimmed name (same id) and show the list the store returns.
     */
    method ConfirmEdit() returns (edited: bool)
      modifies this, store
      ensures edited <==> !IsBlank(old(newName)) && old(editingSensor).Some?
      ensures !edited ==>
        && sensors == old(sensors) && store.slot == old(store.slot)
        && editOpen == old(editOpen) && editingSensor == old(editingSensor)
      ensures edited ==>
        var updated := PlacedSensor(old(editingSensor).value.id, Trim(old(newName)));
        && sensors == Registry.ReplaceById(old(store.Contents()), updated)
        && store.slot == Registry.Stored(sensors)
        && !editOpen && editingSensor == None
      ensures edited ==>
        && |sensors| == |old(store.Contents())|
        && forall i :: 0 <= i < |sensors| ==> sensors[i].id == old(store.Contents())[i].id
      ensures newName == old(newName) && addOpen == old(addOpen)
    {
      var name := Trim(newName);
      TrimEmptyIffBlank(newName);
      if name == [] || editingSensor.None? {
        return false;
      }

      var updated := editingSensor.value.(name := name);
      ghost var before := store.Contents();
      Registry.ReplaceByIdKeepsIds(before, updated);

      var next := store.Update(updated);
      forall i | 0 <= i < |next| ensures next[i] == Registry.ReplaceById(before, updated)[i] {
        Registry.ReplaceByIdAt(before, updated, i);
      }
      sensors := next;

      editOpen := false;
      editingSensor := None;
      edited := true;
    }

    /** The "Delete" answer of `confirmDelete`'s alert: remove the sensor by id and show what remains. */
    method ConfirmDelete(sensor: PlacedSensor)
      modifies this, store
      ensures sensors == Registry.RemoveById(old(store.Contents()), sensor.id)
      ensures store.slot == Registry.Stored(sensors)
      ensures !HasId(sensors, sensor.id) && Registry.IsSubsequence(sensors, old(store.Contents()))
      ensures addOpen == old(addOpen) && newName == old(newName)
      ensures editOpen == old(editOpen) && editingSensor == old(editingSensor)
    {
      var next := store.Remove(sensor.id);
      sensors := next;
    }
  }
}
