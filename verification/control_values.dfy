/**
 * The device-keyed control values store `useControlValues(selectedDevice)`
 * (src/composables/useControlValues.ts): one value per control id for the selected
 * device, kept under "pedal-values:<device>".
 */
module ControlValues {
  import opened Wrappers
  import opened Json
  import opened Host
  import opened StorageKeys

  /** The values `load(device)` fills the store with: the entries stored for device, or none. */
  function LoadedValues(items: map<string, Stored>, device: string): (r: map<string, JsonValue>)
    ensures device == "" || !Truthy(Lookup(items, LegacyValuesKey(device))) ==> r == map[]
    ensures device != "" && Lookup(items, LegacyValuesKey(device)) == Some(Doc(JNull)) ==> r == map[]
  {
    if device == "" then map[]
    else
      var raw := Lookup(items, LegacyValuesKey(device));
      if !Truthy(raw) then map[]
      else match Parse(raw.value)
        case None => map[]
        case Some(obj) => Entries(obj).GetOr(map[])
  }

  /** Round trip: a values object persisted for a device is what `load` reads back for it. */
  lemma PersistedValuesLoad(items: map<string, Stored>, device: string, values: map<string, JsonValue>)
    requires device != ""
    ensures LoadedValues(items[LegacyValuesKey(device) := Doc(JObj(values))], device) == values
  {
  }

  /** Round trip: after `setValue(id, v)` on a device, the next `load` of that device has v at id. */
  lemma SetValueThenLoad(items: map<string, Stored>, device: string, values: map<string, JsonValue>, id: string, v: real)
    requires device != ""
    ensures var persisted := items[LegacyValuesKey(device) := Doc(JObj(values[id := JNum(v)]))];
      id in LoadedValues(persisted, device) && LoadedValues(persisted, device)[id] == JNum(v)
  {
    PersistedValuesLoad(items, device, values[id := JNum(v)]);
  }

  lemma SelectedKeyIsNoValuesKey(device: string)
    ensures LEGACY_SELECTED_KEY != LegacyValuesKey(device)
  {
    assert LEGACY_SELECTED_KEY[6] != LegacyValuesKey(device)[6];
  }

  /** `useControlValues(selectedDevice)` */
  class ValuesStore {
    var selectedDevice: string
    var values: map<string, JsonValue>
    const storage: LocalStorage

    /** The store starts empty, and the immediate watcher selects the initial device. */
    constructor (selectedDevice: string, storage: LocalStorage)
      modifies storage
      ensures this.storage == storage && this.selectedDevice == selectedDevice
      ensures values == LoadedValues(old(storage.items), selectedDevice)
      ensures storage.items == old(storage.items)[LEGACY_SELECTED_KEY := Raw(selectedDevice)]
    {
      this.selectedDevice := "";
      this.storage := storage;
      values := map[];
      new;
      SelectDevice(selectedDevice);
    }

    /** `reset()`: every key is deleted, one at a time. */
    method Reset()
      modifies this
      ensures values == map[] && selectedDevice == old(selectedDevice)
    {
      var keys := values.Keys;
      while keys != {}
        invariant values.Keys == keys && selectedDevice == old(selectedDevice)
        decreases |keys|
      {
        var k :| k in keys;
        values := values - {k};
        keys := keys - {k};
      }
    }

    /** `load(device)`: empty the map, then copy in the stored entries one by one. */
    method Load(device: string)
      modifies this
      ensures values == LoadedValues(storage.items, device) && selectedDevice == old(selectedDevice)
    {
      Reset();
      if device == "" {
        return;
      }
      var raw := storage.GetItem(LegacyValuesKey(device));
      if !Truthy(raw) {
        return;
      }
      var parsed := Parse(raw.value);
      if parsed.None? {
        return;
      }
      var entries := Entries(parsed.value);
      if entries.None? {
        return;
      }
      var obj := entries.value;
      var pending := obj.Keys;
      while pending != {}
        invariant pending <= obj.Keys && selectedDevice == old(selectedDevice)
        invariant values == map k | k in obj && k !in pending :: obj[k]
        decreases |pending|
      {
        var k :| k in pending;
        values := values[k := obj[k]];
        pending := pending - {k};
      }
    }

    /** `persist()`: nothing for an empty device, else a copy of the map under the device's key. */
    method Persist()
      modifies storage
      ensures selectedDevice == "" ==> storage.items == old(storage.items)
      ensures selectedDevice != "" ==> storage.items == old(storage.items)[LegacyValuesKey(selectedDevice) := Doc(JObj(values))]
    {
      var device := selectedDevice;
      if device == "" {
        return;
      }
      var snapshot: map<string, JsonValue> := map[];
      var pending := values.Keys;
      while pending != {}
        invariant pending <= values.Keys
        invariant snapshot == map k | k in values && k !in pending :: values[k]
        decreases |pending|
      {
        var k :| k in pending;
        snapshot := snapshot[k := values[k]];
        pending := pending - {k};
      }
      assert snapshot == values;
      storage.SetItem(LegacyValuesKey(device), Doc(JObj(snapshot)));
    }

    /** `setValue(id, value)`: one key changes, then the whole map is persisted. */
    method SetValue(id: string, value: real)
      modifies this, storage
      ensures values == old(values)[id := JNum(value)] && selectedDevice == old(selectedDevice)
      ensures selectedDevice == "" ==> storage.items == old(storage.items)
      ensures selectedDevice != "" ==> storage.items == old(storage.items)[LegacyValuesKey(selectedDevice) := Doc(JObj(values))]
    {
      values := values[id := JNum(value)];
      Persist();
    }

    /**
     * The watcher on the selected device: the device is saved under "pedal-selected" and
     * its values replace the map (they are not merged into it).
     */
    method SelectDevice(device: string)
      modifies this, storage
      ensures selectedDevice == device
      ensures storage.items == old(storage.items)[LEGACY_SELECTED_KEY := Raw(device)]
      ensures values == LoadedValues(old(storage.items), device)
    {
      selectedDevice := device;
      storage.SetItem(LEGACY_SELECTED_KEY, Raw(device));
      SelectedKeyIsNoValuesKey(device);
      Load(device);
    }
  }
}
