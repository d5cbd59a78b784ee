/**
 * The device-keyed snapshot list `useSnapshots(selectedDevice)`
 * (src/composables/useSnapshots.ts), kept as a JSON array under "pedal-snapshots:<device>".
 * Stored lists are whatever JSON the array held, so the elements stay JSON values.
 */
module Snapshots {
  import opened Wrappers
  import opened Json
  import opened Host
  import opened Seqs
  import opened StorageKeys

  /** The list `load(device)` sets: the stored array for device, else empty. */
  function LoadedSnapshots(items: map<string, Stored>, device: string): (r: seq<JsonValue>)
    ensures device == "" || !Truthy(Lookup(items, LegacySnapshotsKey(device))) ==> r == []
    ensures r != [] ==> Lookup(items, LegacySnapshotsKey(device)) == Some(Doc(JArr(r)))
  {
    if device == "" then []
    else
      var raw := Lookup(items, LegacySnapshotsKey(device));
      if !Truthy(raw) then []
      else match Parse(raw.value)
        case Some(JArr(list)) => list
        case _ => []
  }

  /** Round trip: a persisted list is what `load` reads back for the same device. */
  lemma PersistedSnapshotsLoad(items: map<string, Stored>, device: string, list: seq<JsonValue>)
    requires device != ""
    ensures LoadedSnapshots(items[LegacySnapshotsKey(device) := Doc(JArr(list))], device) == list
  {
  }

  /** The document a new snapshot is stored as. */
  function SnapshotJson(id: string, name: string, values: map<string, JsonValue>, createdAt: string): JsonValue {
    JObj(map["id" := JStr(id), "name" := JStr(name), "values" := JObj(values), "createdAt" := JStr(createdAt)])
  }

  /** `snap.id !== id`; reading `id` of a non-object gives undefined, which differs from every string. */
  predicate KeepsSnapshot(snap: JsonValue, id: string) {
    OptGet(snap, "id") != Defined(JStr(id))
  }

  /** `snapshots.filter((snap) => snap.id !== id)`, for a list with no null element. */
  function WithoutSnapshot(list: seq<JsonValue>, id: string): (r: seq<JsonValue>)
    ensures |r| <= |list|
    ensures forall s :: s in r <==> s in list && KeepsSnapshot(s, id)
    ensures forall s {:trigger multiset(r)[s]} :: multiset(r)[s] == if KeepsSnapshot(s, id) then multiset(list)[s] else 0
  {
    if list == [] then []
    else
      assert list == [list[0]] + list[1..];
      (if KeepsSnapshot(list[0], id) then [list[0]] else []) + WithoutSnapshot(list[1..], id)
  }

  /** Removing keeps the other snapshots in their order. */
  lemma {:induction false} WithoutSnapshotKeepsOrder(list: seq<JsonValue>, id: string)
    ensures IsSubsequence(WithoutSnapshot(list, id), list)
  {
    if list != [] {
      var rest := WithoutSnapshot(list[1..], id);
      WithoutSnapshotKeepsOrder(list[1..], id);
      if KeepsSnapshot(list[0], id) {
        assert WithoutSnapshot(list, id) == [list[0]] + rest;
        assert ([list[0]] + rest)[1..] == rest;
      } else if rest != [] {
        assert WithoutSnapshot(list, id) == [] + rest == rest;
        SubsequenceOfTail(rest, list);
      }
    }
  }

  /** Removing an id no snapshot carries changes nothing. */
  lemma {:induction false} WithoutAbsentSnapshot(list: seq<JsonValue>, id: string)
    requires forall i :: 0 <= i < |list| ==> KeepsSnapshot(list[i], id)
    ensures WithoutSnapshot(list, id) == list
  {
    if list != [] {
      WithoutAbsentSnapshot(list[1..], id);
      assert [list[0]] + list[1..] == list;
    }
  }

  /** The filter distributes over concatenation. */
  lemma {:induction false} WithoutSnapshotAppend(a: seq<JsonValue>, b: seq<JsonValue>, id: string)
    ensures WithoutSnapshot(a + b, id) == WithoutSnapshot(a, id) + WithoutSnapshot(b, id)
  {
    if a != [] {
      assert (a + b)[0] == a[0];
      assert (a + b)[1..] == a[1..] + b;
      var head := if KeepsSnapshot(a[0], id) then [a[0]] else [];
      assert WithoutSnapshot(a + b, id) == head + WithoutSnapshot(a[1..] + b, id);
      assert WithoutSnapshot(a, id) == head + WithoutSnapshot(a[1..], id);
      WithoutSnapshotAppend(a[1..], b, id);
    } else {
      assert a + b == b;
    }
  }

  lemma FreshSnapshotCarriesId(id: string, name: string, values: map<string, JsonValue>, createdAt: string)
    ensures WithoutSnapshot([SnapshotJson(id, name, values, createdAt)], id) == []
  {
    var snap := SnapshotJson(id, name, values, createdAt);
    assert OptGet(snap, "id") == Defined(JStr(id));
    assert WithoutSnapshot([snap], id) == [] + WithoutSnapshot([], id);
  }

  /** Removing a freshly created snapshot by its id gives back the list it was added to. */
  lemma CreateThenRemove(list: seq<JsonValue>, id: string, name: string, values: map<string, JsonValue>, createdAt: string)
    requires forall i :: 0 <= i < |list| ==> KeepsSnapshot(list[i], id)
    ensures WithoutSnapshot(list + [SnapshotJson(id, name, values, createdAt)], id) == list
  {
    var snap := SnapshotJson(id, name, values, createdAt);
    FreshSnapshotCarriesId(id, name, values, createdAt);
    WithoutSnapshotAppend(list, [snap], id);
    WithoutAbsentSnapshot(list, id);
  }

  /** `useSnapshots(selectedDevice)`; `oracle` gives snapshot ids and the current time. */
  class SnapshotStore {
    var selectedDevice: string
    var snapshots: seq<JsonValue>
    const storage: LocalStorage
    const oracle: Oracle

    /** The list starts empty, and the immediate watcher loads the initial device. */
    constructor (selectedDevice: string, storage: LocalStorage, oracle: Oracle)
      ensures this.storage == storage && this.oracle == oracle && this.selectedDevice == selectedDevice
      ensures snapshots == LoadedSnapshots(storage.items, selectedDevice)
    {
      this.selectedDevice := selectedDevice;
      this.storage := storage;
      this.oracle := oracle;
      snapshots := [];
      new;
      Load(selectedDevice);
    }

    /** `load(device)` */
    method Load(device: string)
      modifies this
      ensures snapshots == LoadedSnapshots(storage.items, device) && selectedDevice == old(selectedDevice)
    {
      if device == "" {
        snapshots := [];
        return;
      }
      var raw := storage.GetItem(LegacySnapshotsKey(device));
      if !Truthy(raw) {
        snapshots := [];
        return;
      }
      var parsed := Parse(raw.value);
      snapshots := if parsed.Some? && parsed.value.JArr? then parsed.value.items else [];
    }

    /** `persist()`: nothing for an empty device, else the list under the device's key. */
    method Persist()
      modifies storage
      ensures selectedDevice == "" ==> storage.items == old(storage.items)
      ensures selectedDevice != "" ==> storage.items == old(storage.items)[LegacySnapshotsKey(selectedDevice) := Doc(JArr(snapshots))]
    {
      var device := selectedDevice;
      if device == "" {
        return;
      }
      storage.SetItem(LegacySnapshotsKey(device), Doc(JArr(snapshots)));
    }

    /**
     * `createSnapshot(name, values)`: with a device selected, one snapshot with a fresh id,
     * the name (or, when it is empty, the local time) and the values is appended and the
     * list persisted; without one, nothing happens.
     */
    method CreateSnapshot(name: string, values: map<string, JsonValue>)
      modifies this, storage, oracle
      ensures selectedDevice == old(selectedDevice)
      ensures oracle.isoNow == old(oracle.isoNow) && oracle.localeNow == old(oracle.localeNow)
      ensures selectedDevice == "" ==>
        && snapshots == old(snapshots) && storage.items == old(storage.items) && oracle.issued == old(oracle.issued)
      ensures selectedDevice != "" ==>
        && snapshots == old(snapshots) + [SnapshotJson(IdToken(old(oracle.issued)), if name == "" then oracle.localeNow else name, values, oracle.isoNow)]
        && oracle.issued == old(oracle.issued) + 1
        && storage.items == old(storage.items)[LegacySnapshotsKey(selectedDevice) := Doc(JArr(snapshots))]
    {
      var device := selectedDevice;
      if device == "" {
        return;
      }
      var id := oracle.GenerateId();
      var snapshot := SnapshotJson(id, if name == "" then oracle.localeNow else name, values, oracle.isoNow);
      snapshots := snapshots + [snapshot];
      Persist();
    }

    /**
     * `removeSnapshot(id)`: every snapshot with that id leaves the list, which is then
     * persisted. A null element makes the filter throw (`ok` false) before anything changes.
     */
    method RemoveSnapshot(id: string) returns (ok: bool)
      modifies this, storage
      ensures selectedDevice == old(selectedDevice)
      ensures ok <==> JNull !in old(snapshots)
      ensures !ok ==> snapshots == old(snapshots) && storage.items == old(storage.items)
      ensures ok ==> snapshots == WithoutSnapshot(old(snapshots), id)
      ensures ok && selectedDevice == "" ==> storage.items == old(storage.items)
      ensures ok && selectedDevice != "" ==> storage.items == old(storage.items)[LegacySnapshotsKey(selectedDevice) := Doc(JArr(snapshots))]
    {
      if JNull in snapshots {
        return false;
      }
      snapshots := WithoutSnapshot(snapshots, id);
      Persist();
      ok := true;
    }

    /** The watcher on the selected device reloads the list for the new device. */
    method SelectDevice(device: string)
      modifies this
      ensures selectedDevice == device && snapshots == LoadedSnapshots(storage.items, device)
    {
      selectedDevice := device;
      Load(device);
    }
  }
}
