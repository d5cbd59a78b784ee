/**
 * The one-shot migration from the device-keyed storage scheme to the pedal board
 * (src/composables/usePedalBoard.ts): scan the storage keys for device names, then create
 * one instance per known device and copy its value and snapshot payloads to the new
 * instance's keys. The order `localStorage.key(i)` enumerates keys in is a parameter.
 */
module LegacyMigration {
  import opened Wrappers
  import opened JsText
  import opened Json
  import opened Host
  import opened Midi
  import opened Seqs
  import opened StorageKeys
  import opened PedalConfig
  import opened BoardModel

  // ---------------------------------------------------------------------------
  // Scanning for legacy devices

  /** The device a storage key names under the legacy scheme, checked in the scan's order. */
  function LegacyDeviceOfKey(key: string): Option<string> {
    if key == "" then None
    else if IsLegacyValuesKey(key) then Some(LegacyDeviceFromValuesKey(key))
    else if IsLegacySnapshotsKey(key) then Some(LegacyDeviceFromSnapshotsKey(key))
    else if StartsWith(key, LEGACY_CHANNEL_PREFIX) then Some(SliceFrom(key, |LEGACY_CHANNEL_PREFIX|))
    else None
  }

  /** Each legacy key names its device back, and no key of the board scheme names one. */
  lemma LegacyKeysNameTheirDevice(device: string, instanceId: string)
    ensures LegacyDeviceOfKey(LegacyChannelKey(device)) == Some(device)
    ensures !StartsWith(device, "v2:") ==> LegacyDeviceOfKey(LegacyValuesKey(device)) == Some(device)
    ensures !StartsWith(device, "v2:") ==> LegacyDeviceOfKey(LegacySnapshotsKey(device)) == Some(device)
    ensures LegacyDeviceOfKey(ValuesStorageKey(instanceId)) == None
    ensures LegacyDeviceOfKey(SnapshotsStorageKey(instanceId)) == None
    ensures LegacyDeviceOfKey(BOARD_STORAGE_KEY) == None
  {
    var ck := LegacyChannelKey(device);
    assert ck[6] == 'c' && LEGACY_VALUES_PREFIX[6] == 'v' && LEGACY_SNAPSHOTS_PREFIX[6] == 's';
    assert !StartsWith(ck, LEGACY_VALUES_PREFIX) by { assert ck[..|LEGACY_VALUES_PREFIX|][6] == 'c'; }
    assert !StartsWith(ck, LEGACY_SNAPSHOTS_PREFIX) by {
      if |ck| >= |LEGACY_SNAPSHOTS_PREFIX| {
        assert ck[..|LEGACY_SNAPSHOTS_PREFIX|][6] == 'c';
      }
    }
    LegacyChannelKeyRoundTrip(device);
    LegacyValuesKeyIff(device);
    var sk := LegacySnapshotsKey(device);
    assert !StartsWith(sk, LEGACY_VALUES_PREFIX) by { assert sk[..|LEGACY_VALUES_PREFIX|][6] == 's'; }
    LegacySnapshotsKeyIff(device);
    assert LegacyDeviceFromSnapshotsKey(sk) == device by {
      assert sk[|LEGACY_SNAPSHOTS_PREFIX|..] == device;
    }
    var vk := ValuesStorageKey(instanceId);
    ValuesKeyIsNotLegacy(instanceId);
    assert !StartsWith(vk, LEGACY_SNAPSHOTS_PREFIX) by { assert vk[..|LEGACY_SNAPSHOTS_PREFIX|][6] == 'v'; }
    assert !StartsWith(vk, LEGACY_CHANNEL_PREFIX) by { assert vk[..|LEGACY_CHANNEL_PREFIX|][6] == 'v'; }
    var nk := SnapshotsStorageKey(instanceId);
    assert !StartsWith(nk, LEGACY_VALUES_PREFIX) by { assert nk[..|LEGACY_VALUES_PREFIX|][6] == 's'; }
    assert StartsWith(nk, SNAPSHOTS_PREFIX);
    assert !StartsWith(nk, LEGACY_CHANNEL_PREFIX) by { assert nk[..|LEGACY_CHANNEL_PREFIX|][6] == 's'; }
    BoardKeyIsNotLegacy();
  }

  /** `devices.add(d)` on a set that keeps insertion order. */
  function AddDevice(devices: seq<string>, d: string): (r: seq<string>)
    ensures d in r && forall x :: x in r <==> x in devices || x == d
    ensures NoDuplicates(devices) ==> NoDuplicates(r)
  {
    if d in devices then devices else devices + [d]
  }

  /** The device saved under "pedal-selected", which the scan adds first when it is not empty. */
  function SeedDevices(items: map<string, Stored>): seq<string> {
    var saved := RawText(Lookup(items, LEGACY_SELECTED_KEY));
    if saved.Some? && saved.value != "" then [saved.value] else []
  }

  /** The device set after scanning keys in order, starting from devices. */
  function ScanKeys(devices: seq<string>, keys: seq<string>): seq<string>
    decreases |keys|
  {
    if keys == [] then devices
    else
      var before := ScanKeys(devices, keys[..|keys| - 1]);
      match LegacyDeviceOfKey(keys[|keys| - 1])
      case None => before
      case Some(d) => AddDevice(before, d)
  }

  /** What `snapshotLegacyDeviceKeys()` returns when storage enumerates its keys in keyOrder. */
  function LegacyDevices(items: map<string, Stored>, keyOrder: seq<string>): seq<string> {
    ScanKeys(SeedDevices(items), keyOrder)
  }

  /** The scan lists each device once. */
  lemma {:induction false} ScanHasNoDuplicates(devices: seq<string>, keys: seq<string>)
    requires NoDuplicates(devices)
    ensures NoDuplicates(ScanKeys(devices, keys))
    decreases |keys|
  {
    if keys != [] {
      ScanHasNoDuplicates(devices, keys[..|keys| - 1]);
    }
  }

  /** The scan lists exactly the seed devices and the devices some key names. */
  lemma {:induction false} ScanMembership(devices: seq<string>, keys: seq<string>, d: string)
    ensures d in ScanKeys(devices, keys) <==> d in devices || exists k :: k in keys && LegacyDeviceOfKey(k) == Some(d)
    decreases |keys|
  {
    if keys != [] {
      var init := keys[..|keys| - 1];
      var last := keys[|keys| - 1];
      ScanMembership(devices, init, d);
      assert keys == init + [last];
      if exists k :: k in keys && LegacyDeviceOfKey(k) == Some(d) {
        var k :| k in keys && LegacyDeviceOfKey(k) == Some(d);
        if k != last {
          assert k in init;
        }
      }
    }
  }

  /**
   * The devices migration finds, when keyOrder enumerates exactly the stored keys: the
   * saved device, then those named by some stored key, each once.
   */
  lemma LegacyDevicesCharacterised(items: map<string, Stored>, keyOrder: seq<string>, d: string)
    requires forall k :: k in keyOrder <==> k in items
    ensures NoDuplicates(LegacyDevices(items, keyOrder))
    ensures d in LegacyDevices(items, keyOrder) <==>
      || d in SeedDevices(items)
      || exists k :: k in items && LegacyDeviceOfKey(k) == Some(d)
  {
    ScanHasNoDuplicates(SeedDevices(items), keyOrder);
    ScanMembership(SeedDevices(items), keyOrder, d);
  }

  /** `snapshotLegacyDeviceKeys()` */
  method SnapshotLegacyDeviceKeys(storage: LocalStorage, keyOrder: seq<string>) returns (devices: seq<string>)
    ensures devices == LegacyDevices(storage.items, keyOrder)
  {
    devices := [];
    var saved := RawText(storage.GetItem(LEGACY_SELECTED_KEY));
    if saved.Some? && saved.value != "" {
      devices := AddDevice(devices, saved.value);
    }
    for i := 0 to |keyOrder|
      invariant devices == ScanKeys(SeedDevices(storage.items), keyOrder[..i])
    {
      var key := keyOrder[i];
      assert keyOrder[..i + 1][..i] == keyOrder[..i];
      if key == "" {
        continue;
      }
      if IsLegacyValuesKey(key) {
        devices := AddDevice(devices, LegacyDeviceFromValuesKey(key));
      } else if IsLegacySnapshotsKey(key) {
        devices := AddDevice(devices, LegacyDeviceFromSnapshotsKey(key));
      } else if StartsWith(key, LEGACY_CHANNEL_PREFIX) {
        devices := AddDevice(devices, SliceFrom(key, |LEGACY_CHANNEL_PREFIX|));
      }
    }
    assert keyOrder[..|keyOrder|] == keyOrder;
  }

  // ---------------------------------------------------------------------------
  // Copying legacy payloads to instance keys

  /** The instance-keyed values document `{ device, values }`. */
  function ValuesPayload(device: string, values: JsonValue): JsonValue {
    JObj(map["device" := JStr(device), "values" := values])
  }

  /** The instance-keyed snapshots document `{ device, snapshots }`. */
  function SnapshotsPayload(device: string, snapshots: JsonValue): JsonValue {
    JObj(map["device" := JStr(device), "snapshots" := snapshots])
  }

  /**
   * The storage after `copyLegacyValues(storage, device, instanceId)`: a legacy payload
   * that is present, non-empty and parses is stored, with its device, under the
   * instance's values key; nothing else changes.
   */
  function CopiedLegacyValues(items: map<string, Stored>, device: string, instanceId: string): (r: map<string, Stored>)
    ensures forall k :: k != ValuesStorageKey(instanceId) ==> Lookup(r, k) == Lookup(items, k)
    ensures var raw := Lookup(items, LegacyValuesKey(device));
      Lookup(r, ValuesStorageKey(instanceId)) ==
        if Truthy(raw) && Parse(raw.value).Some? then Some(Doc(ValuesPayload(device, Parse(raw.value).value)))
        else Lookup(items, ValuesStorageKey(instanceId))
  {
    var raw := Lookup(items, LegacyValuesKey(device));
    if !Truthy(raw) then items
    else match Parse(raw.value)
      case None => items
      case Some(parsed) => items[ValuesStorageKey(instanceId) := Doc(ValuesPayload(device, parsed))]
  }

  /**
   * The snapshots document written for a parsed legacy payload: a bare array is wrapped
   * with the device; otherwise its `snapshots` field is kept, null or undefined giving [].
   */
  function SnapshotsPayloadFor(device: string, parsed: JsonValue): (p: JsonValue)
    ensures parsed.JArr? ==> p == SnapshotsPayload(device, parsed)
    ensures p.JObj? && p.fields.Keys == {"device", "snapshots"} && p.fields["device"] == JStr(device)
    ensures !parsed.JArr? && OptGet(parsed, "snapshots") == Undefined ==> p == SnapshotsPayload(device, JArr([]))
  {
    if parsed.JArr? then SnapshotsPayload(device, parsed)
    else
      var field := OptGet(parsed, "snapshots");
      SnapshotsPayload(device, if field.Defined? && field.value != JNull then field.value else JArr([]))
  }

  /** The storage after `copyLegacySnapshots(storage, device, instanceId)`. */
  function CopiedLegacySnapshots(items: map<string, Stored>, device: string, instanceId: string): (r: map<string, Stored>)
    ensures forall k :: k != SnapshotsStorageKey(instanceId) ==> Lookup(r, k) == Lookup(items, k)
    ensures var raw := Lookup(items, LegacySnapshotsKey(device));
      Lookup(r, SnapshotsStorageKey(instanceId)) ==
        if Truthy(raw) && Parse(raw.value).Some? then Some(Doc(SnapshotsPayloadFor(device, Parse(raw.value).value)))
        else Lookup(items, SnapshotsStorageKey(instanceId))
  {
    var raw := Lookup(items, LegacySnapshotsKey(device));
    if !Truthy(raw) then items
    else match Parse(raw.value)
      case None => items
      case Some(parsed) => items[SnapshotsStorageKey(instanceId) := Doc(SnapshotsPayloadFor(device, parsed))]
  }

  /** `copyLegacyValues(storage, device, instanceId)` */
  method CopyLegacyValues(storage: LocalStorage, device: string, instanceId: string)
    modifies storage
    ensures storage.items == CopiedLegacyValues(old(storage.items), device, instanceId)
  {
    var raw := storage.GetItem(LegacyValuesKey(device));
    if !Truthy(raw) {
      return;
    }
    var parsed := Parse(raw.value);
    if parsed.None? {
      return;
    }
    storage.SetItem(ValuesStorageKey(instanceId), Doc(ValuesPayload(device, parsed.value)));
  }

  /** `copyLegacySnapshots(storage, device, instanceId)` */
  method CopyLegacySnapshots(storage: LocalStorage, device: string, instanceId: string)
    modifies storage
    ensures storage.items == CopiedLegacySnapshots(old(storage.items), device, instanceId)
  {
    var raw := storage.GetItem(LegacySnapshotsKey(device));
    if !Truthy(raw) {
      return;
    }
    var parsed := Parse(raw.value);
    if parsed.None? {
      return;
    }
    storage.SetItem(SnapshotsStorageKey(instanceId), Doc(SnapshotsPayloadFor(device, parsed.value)));
  }

  // ---------------------------------------------------------------------------
  // The migration

  /** The channel migration gives a device: its stored legacy channel if valid, else its configured one, sanitised. */
  function LegacyChannel(items: map<string, Stored>, catalog: seq<Profile>, device: string): (c: MidiChannel)
    ensures var raw := StoredToNumber(Lookup(items, LegacyChannelKey(device)));
      raw.Some? && IsMidiChannel(raw.value) ==> c as real == raw.value
    ensures var raw := StoredToNumber(Lookup(items, LegacyChannelKey(device)));
      !(raw.Some? && IsMidiChannel(raw.value)) ==> c == SanitizeChannel(ProfileChannel(catalog, device))
  {
    var raw := StoredToNumber(Lookup(items, LegacyChannelKey(device)));
    SanitizeChannel(if raw.Some? && IsMidiChannel(raw.value) then raw else ProfileChannel(catalog, device))
  }

  /** The board built so far, the storage, and the number of ids handed out. */
  datatype Migration = Migration(board: seq<PedalInstance>, items: map<string, Stored>, issued: nat)

  /** One turn of the migration loop for a candidate device. */
  function MigrationStep(m: Migration, catalog: seq<Profile>, device: string, now: string): Migration {
    if device !in ListPedals(catalog) then m
    else
      var id := IdToken(m.issued);
      var channel := LegacyChannel(m.items, catalog, device);
      var items := CopiedLegacySnapshots(CopiedLegacyValues(m.items, device, id), device, id);
      Migration(m.board + [PedalInstance(id, Some(device), channel, now)], items, m.issued + 1)
  }

  /** The migration loop run over candidates, from storage items and `issued` ids handed out. */
  function Migrate(items: map<string, Stored>, catalog: seq<Profile>, candidates: seq<string>, issued: nat, now: string): (m: Migration)
    ensures |m.board| == |KnownOnly(catalog, candidates)| && m.issued == issued + |m.board|
    decreases |candidates|
  {
    if candidates == [] then Migration([], items, issued)
    else MigrationStep(Migrate(items, catalog, candidates[..|candidates| - 1], issued, now), catalog, candidates[|candidates| - 1], now)
  }

  /** The candidates that name a known device, in order. */
  function KnownOnly(catalog: seq<Profile>, candidates: seq<string>): (r: seq<string>)
    ensures |r| <= |candidates|
    ensures forall d :: d in r <==> d in candidates && d in ListPedals(catalog)
    decreases |candidates|
  {
    if candidates == [] then []
    else
      var last := candidates[|candidates| - 1];
      assert candidates == candidates[..|candidates| - 1] + [last];
      KnownOnly(catalog, candidates[..|candidates| - 1]) + (if last in ListPedals(catalog) then [last] else [])
  }

  lemma {:induction false} KnownOnlyHasNoDuplicates(catalog: seq<Profile>, candidates: seq<string>)
    requires NoDuplicates(candidates)
    ensures NoDuplicates(KnownOnly(catalog, candidates))
    decreases |candidates|
  {
    if candidates != [] {
      var init := candidates[..|candidates| - 1];
      assert NoDuplicates(init);
      KnownOnlyHasNoDuplicates(catalog, init);
      assert candidates[|candidates| - 1] !in init;
    }
  }

  /**
   * Migration makes one instance per known candidate, in order, with consecutive fresh
   * ids, no channel outside 1..16 and the current time.
   */
  lemma {:induction false} MigrationShape(items: map<string, Stored>, catalog: seq<Profile>, candidates: seq<string>, issued: nat, now: string)
    ensures var m := Migrate(items, catalog, candidates, issued, now);
      var known := KnownOnly(catalog, candidates);
      && |m.board| == |known| && m.issued == issued + |known|
      && forall i :: 0 <= i < |m.board| ==>
        m.board[i].id == IdToken(issued + i) && m.board[i].device == Some(known[i]) && m.board[i].createdAt == now
    decreases |candidates|
  {
    if candidates != [] {
      var init := candidates[..|candidates| - 1];
      var last := candidates[|candidates| - 1];
      var m0 := Migrate(items, catalog, init, issued, now);
      var m := Migrate(items, catalog, candidates, issued, now);
      assert m == MigrationStep(m0, catalog, last, now);
      MigrationShape(items, catalog, init, issued, now);
      MigrationStepBoard(m0, catalog, last, now);
      var known := KnownOnly(catalog, candidates);
      assert known == KnownOnly(catalog, init) + (if last in ListPedals(catalog) then [last] else []);
      forall i | 0 <= i < |m.board|
        ensures m.board[i].id == IdToken(issued + i) && m.board[i].device == Some(known[i]) && m.board[i].createdAt == now
      {
        if i < |m0.board| {
          assert m.board[i] == m0.board[i] && known[i] == KnownOnly(catalog, init)[i];
        }
      }
    }
  }

  /** One migration turn appends at most the instance for its device, with the next id. */
  lemma MigrationStepBoard(m: Migration, catalog: seq<Profile>, device: string, now: string)
    ensures var next := MigrationStep(m, catalog, device, now);
      && next.issued == m.issued + (if device in ListPedals(catalog) then 1 else 0)
      && next.board == m.board + (if device in ListPedals(catalog)
                                  then [PedalInstance(IdToken(m.issued), Some(device), LegacyChannel(m.items, catalog, device), now)]
                                  else [])
  {
  }

  /** Neither instance key of the ids issued from `from` up to `to` is key. */
  predicate Untouched(key: string, from: nat, to: nat) {
    forall j: nat :: from <= j < to ==> key != ValuesStorageKey(IdToken(j)) && key != SnapshotsStorageKey(IdToken(j))
  }

  lemma InstanceKeysApart(m: nat, n: nat)
    ensures ValuesStorageKey(IdToken(m)) != SnapshotsStorageKey(IdToken(n))
    ensures m != n ==> ValuesStorageKey(IdToken(m)) != ValuesStorageKey(IdToken(n))
    ensures m != n ==> SnapshotsStorageKey(IdToken(m)) != SnapshotsStorageKey(IdToken(n))
  {
    var a, b := IdToken(m), IdToken(n);
    assert ValuesStorageKey(a)[6] != SnapshotsStorageKey(b)[6];
    assert ValuesStorageKey(a)[|VALUES_PREFIX|..] == a && ValuesStorageKey(b)[|VALUES_PREFIX|..] == b;
    assert SnapshotsStorageKey(a)[|SNAPSHOTS_PREFIX|..] == a && SnapshotsStorageKey(b)[|SNAPSHOTS_PREFIX|..] == b;
    if m != n {
      assert a != b by {
        if a == b {
          IdTokenInjective(m, n);
        }
      }
    }
  }

  /** The legacy keys of a device not named "v2:..." are never instance keys. */
  lemma LegacyKeysAreNotInstanceKeys(device: string, instanceId: string)
    requires !StartsWith(device, "v2:")
    ensures LegacyValuesKey(device) != ValuesStorageKey(instanceId)
    ensures LegacyValuesKey(device) != SnapshotsStorageKey(instanceId)
    ensures LegacySnapshotsKey(device) != ValuesStorageKey(instanceId)
    ensures LegacySnapshotsKey(device) != SnapshotsStorageKey(instanceId)
    ensures LegacyChannelKey(device) != ValuesStorageKey(instanceId)
    ensures LegacyChannelKey(device) != SnapshotsStorageKey(instanceId)
  {
    LegacyValuesKeyIff(device);
    LegacySnapshotsKeyIff(device);
    assert LegacyValuesKey(device)[6] != SnapshotsStorageKey(instanceId)[6];
    assert LegacySnapshotsKey(device)[6] != ValuesStorageKey(instanceId)[6];
    ChannelKeysAreApart(device, instanceId);
  }

  /** One migration turn writes only to the instance keys of the id it hands out. */
  lemma MigrationStepFrame(m: Migration, catalog: seq<Profile>, device: string, now: string, key: string)
    requires key != ValuesStorageKey(IdToken(m.issued)) && key != SnapshotsStorageKey(IdToken(m.issued))
    ensures Lookup(MigrationStep(m, catalog, device, now).items, key) == Lookup(m.items, key)
  {
  }

  /** A migration turn leaves the instance keys of ids handed out earlier alone. */
  lemma MigrationStepKeepsEarlier(m: Migration, catalog: seq<Profile>, device: string, now: string, issued: nat, i: nat)
    requires issued + i < m.issued
    ensures var id := IdToken(issued + i);
      && Lookup(MigrationStep(m, catalog, device, now).items, ValuesStorageKey(id)) == Lookup(m.items, ValuesStorageKey(id))
      && Lookup(MigrationStep(m, catalog, device, now).items, SnapshotsStorageKey(id)) == Lookup(m.items, SnapshotsStorageKey(id))
  {
    var id := IdToken(issued + i);
    InstanceKeysApart(issued + i, m.issued);
    InstanceKeysApart(m.issued, issued + i);
    MigrationStepFrame(m, catalog, device, now, ValuesStorageKey(id));
    MigrationStepFrame(m, catalog, device, now, SnapshotsStorageKey(id));
  }

  /** Migration writes only to the instance keys of the ids it hands out. */
  lemma {:induction false} MigrationFrame(items: map<string, Stored>, catalog: seq<Profile>, candidates: seq<string>, issued: nat, now: string, key: string)
    requires Untouched(key, issued, issued + |KnownOnly(catalog, candidates)|)
    ensures Lookup(Migrate(items, catalog, candidates, issued, now).items, key) == Lookup(items, key)
    decreases |candidates|
  {
    if candidates != [] {
      var init := candidates[..|candidates| - 1];
      MigrationShape(items, catalog, init, issued, now);
      MigrationFrame(items, catalog, init, issued, now, key);
    }
  }

  /** Each migrated channel is the one its device had in the storage before migration. */
  lemma {:induction false} MigrationChannels(items: map<string, Stored>, catalog: seq<Profile>, candidates: seq<string>, issued: nat, now: string)
    ensures var m := Migrate(items, catalog, candidates, issued, now);
      forall i :: 0 <= i < |m.board| ==> m.board[i].channel == LegacyChannel(items, catalog, KnownOnly(catalog, candidates)[i])
    decreases |candidates|
  {
    if candidates != [] {
      var init := candidates[..|candidates| - 1];
      var device := candidates[|candidates| - 1];
      MigrationChannels(items, catalog, init, issued, now);
      MigrationShape(items, catalog, init, issued, now);
      forall j: nat | issued <= j < issued + |KnownOnly(catalog, init)|
        ensures LegacyChannelKey(device) != ValuesStorageKey(IdToken(j))
        ensures LegacyChannelKey(device) != SnapshotsStorageKey(IdToken(j))
      {
        ChannelKeysAreApart(device, IdToken(j));
      }
      MigrationFrame(items, catalog, init, issued, now, LegacyChannelKey(device));
    }
  }

  lemma LegacyKeysUntouched(device: string, from: nat, to: nat)
    requires !StartsWith(device, "v2:")
    ensures Untouched(LegacyValuesKey(device), from, to) && Untouched(LegacySnapshotsKey(device), from, to)
  {
    forall j: nat | from <= j < to
      ensures LegacyValuesKey(device) != ValuesStorageKey(IdToken(j))
      ensures LegacyValuesKey(device) != SnapshotsStorageKey(IdToken(j))
      ensures LegacySnapshotsKey(device) != ValuesStorageKey(IdToken(j))
      ensures LegacySnapshotsKey(device) != SnapshotsStorageKey(IdToken(j))
    {
      LegacyKeysAreNotInstanceKeys(device, IdToken(j));
    }
  }

  lemma InstanceKeysUntouched(n: nat, from: nat)
    ensures Untouched(ValuesStorageKey(IdToken(n)), from, n) && Untouched(SnapshotsStorageKey(IdToken(n)), from, n)
  {
    forall j: nat | from <= j < n
      ensures ValuesStorageKey(IdToken(n)) != ValuesStorageKey(IdToken(j))
      ensures ValuesStorageKey(IdToken(n)) != SnapshotsStorageKey(IdToken(j))
      ensures SnapshotsStorageKey(IdToken(n)) != ValuesStorageKey(IdToken(j))
      ensures SnapshotsStorageKey(IdToken(n)) != SnapshotsStorageKey(IdToken(j))
    {
      InstanceKeysApart(n, j);
      InstanceKeysApart(j, n);
    }
  }

  /** The copies made for the last candidate, when it is known, read the storage as it was before migration. */
  lemma MigrationValuesCopyLast(items: map<string, Stored>, catalog: seq<Profile>, candidates: seq<string>, issued: nat, now: string)
    requires candidates != [] && candidates[|candidates| - 1] in ListPedals(catalog)
    requires !StartsWith(candidates[|candidates| - 1], "v2:")
    ensures var init := candidates[..|candidates| - 1];
      var device := candidates[|candidates| - 1];
      var id := IdToken(issued + |KnownOnly(catalog, init)|);
      Lookup(Migrate(items, catalog, candidates, issued, now).items, ValuesStorageKey(id))
        == Lookup(CopiedLegacyValues(items, device, id), ValuesStorageKey(id))
  {
    var init := candidates[..|candidates| - 1];
    var device := candidates[|candidates| - 1];
    var m0 := Migrate(items, catalog, init, issued, now);
    var n := m0.issued;
    var id := IdToken(n);
    var mid := CopiedLegacyValues(m0.items, device, id);
    MigrateUnfold(items, catalog, candidates, issued, now);
    InstanceKeysApart(n, n);
    SnapshotsCopyKeeps(mid, device, id, ValuesStorageKey(id));
    LegacyKeysUntouched(device, issued, n);
    InstanceKeysUntouched(n, issued);
    MigrationFrame(items, catalog, init, issued, now, LegacyValuesKey(device));
    MigrationFrame(items, catalog, init, issued, now, ValuesStorageKey(id));
    ValuesCopiesAgree(m0.items, items, device, id);
  }

  lemma MigrationSnapshotsCopyLast(items: map<string, Stored>, catalog: seq<Profile>, candidates: seq<string>, issued: nat, now: string)
    requires candidates != [] && candidates[|candidates| - 1] in ListPedals(catalog)
    requires !StartsWith(candidates[|candidates| - 1], "v2:")
    ensures var init := candidates[..|candidates| - 1];
      var device := candidates[|candidates| - 1];
      var id := IdToken(issued + |KnownOnly(catalog, init)|);
      Lookup(Migrate(items, catalog, candidates, issued, now).items, SnapshotsStorageKey(id))
        == Lookup(CopiedLegacySnapshots(items, device, id), SnapshotsStorageKey(id))
  {
    var init := candidates[..|candidates| - 1];
    var device := candidates[|candidates| - 1];
    var m0 := Migrate(items, catalog, init, issued, now);
    var n := m0.issued;
    var id := IdToken(n);
    var mid := CopiedLegacyValues(m0.items, device, id);
    MigrateUnfold(items, catalog, candidates, issued, now);
    InstanceKeysApart(n, n);
    LegacyKeysAreNotInstanceKeys(device, id);
    ValuesCopyKeeps(m0.items, device, id, LegacySnapshotsKey(device));
    ValuesCopyKeeps(m0.items, device, id, SnapshotsStorageKey(id));
    LegacyKeysUntouched(device, issued, n);
    InstanceKeysUntouched(n, issued);
    MigrationFrame(items, catalog, init, issued, now, LegacySnapshotsKey(device));
    MigrationFrame(items, catalog, init, issued, now, SnapshotsStorageKey(id));
    SnapshotsCopiesAgree(mid, items, device, id);
  }

  lemma ValuesCopyKeeps(items: map<string, Stored>, device: string, id: string, key: string)
    requires key != ValuesStorageKey(id)
    ensures Lookup(CopiedLegacyValues(items, device, id), key) == Lookup(items, key)
  {
  }

  lemma SnapshotsCopyKeeps(items: map<string, Stored>, device: string, id: string, key: string)
    requires key != SnapshotsStorageKey(id)
    ensures Lookup(CopiedLegacySnapshots(items, device, id), key) == Lookup(items, key)
  {
  }

  /** Storages that agree on a device's legacy values key and an instance's values key get the same copy there. */
  lemma ValuesCopiesAgree(a: map<string, Stored>, b: map<string, Stored>, device: string, id: string)
    requires Lookup(a, LegacyValuesKey(device)) == Lookup(b, LegacyValuesKey(device))
    requires Lookup(a, ValuesStorageKey(id)) == Lookup(b, ValuesStorageKey(id))
    ensures Lookup(CopiedLegacyValues(a, device, id), ValuesStorageKey(id)) == Lookup(CopiedLegacyValues(b, device, id), ValuesStorageKey(id))
  {
  }

  /** The same for the snapshots keys. */
  lemma SnapshotsCopiesAgree(a: map<string, Stored>, b: map<string, Stored>, device: string, id: string)
    requires Lookup(a, LegacySnapshotsKey(device)) == Lookup(b, LegacySnapshotsKey(device))
    requires Lookup(a, SnapshotsStorageKey(id)) == Lookup(b, SnapshotsStorageKey(id))
    ensures Lookup(CopiedLegacySnapshots(a, device, id), SnapshotsStorageKey(id)) == Lookup(CopiedLegacySnapshots(b, device, id), SnapshotsStorageKey(id))
  {
  }

  /**
   * The i-th migrated instance holds, under its values and snapshots keys, what copying
   * its device's legacy payloads from the storage before migration writes there; this
   * needs known device names not to start with "v2:", which would make their legacy keys
   * instance keys.
   */
  lemma {:induction false} MigrationCopies(items: map<string, Stored>, catalog: seq<Profile>, candidates: seq<string>, issued: nat, now: string, i: nat)
    requires forall d :: d in ListPedals(catalog) ==> !StartsWith(d, "v2:")
    requires i < |KnownOnly(catalog, candidates)|
    ensures var m := Migrate(items, catalog, candidates, issued, now);
      var device := KnownOnly(catalog, candidates)[i];
      var id := IdToken(issued + i);
      && Lookup(m.items, ValuesStorageKey(id)) == Lookup(CopiedLegacyValues(items, device, id), ValuesStorageKey(id))
      && Lookup(m.items, SnapshotsStorageKey(id)) == Lookup(CopiedLegacySnapshots(items, device, id), SnapshotsStorageKey(id))
  {
    MigrationValuesCopies(items, catalog, candidates, issued, now, i);
    MigrationSnapshotsCopies(items, catalog, candidates, issued, now, i);
  }

  lemma MigrateUnfold(items: map<string, Stored>, catalog: seq<Profile>, candidates: seq<string>, issued: nat, now: string)
    requires candidates != []
    ensures Migrate(items, catalog, candidates, issued, now)
         == MigrationStep(Migrate(items, catalog, candidates[..|candidates| - 1], issued, now), catalog, candidates[|candidates| - 1], now)
  {
  }

  /** The last migration turn leaves the instance keys of earlier ids as the earlier turns left them. */
  lemma MigrateKeepsEarlier(items: map<string, Stored>, catalog: seq<Profile>, candidates: seq<string>, issued: nat, now: string, i: nat)
    requires candidates != [] && i < |KnownOnly(catalog, candidates[..|candidates| - 1])|
    ensures var id := IdToken(issued + i);
      var before := Migrate(items, catalog, candidates[..|candidates| - 1], issued, now).items;
      var after := Migrate(items, catalog, candidates, issued, now).items;
      && Lookup(after, ValuesStorageKey(id)) == Lookup(before, ValuesStorageKey(id))
      && Lookup(after, SnapshotsStorageKey(id)) == Lookup(before, SnapshotsStorageKey(id))
  {
    var m0 := Migrate(items, catalog, candidates[..|candidates| - 1], issued, now);
    MigrationStepKeepsEarlier(m0, catalog, candidates[|candidates| - 1], now, issued, i);
    MigrateUnfold(items, catalog, candidates, issued, now);
  }

  lemma KnownOnlyPrefix(catalog: seq<Profile>, candidates: seq<string>, i: nat)
    requires candidates != [] && i < |KnownOnly(catalog, candidates[..|candidates| - 1])|
    ensures i < |KnownOnly(catalog, candidates)|
    ensures KnownOnly(catalog, candidates)[i] == KnownOnly(catalog, candidates[..|candidates| - 1])[i]
  {
  }

  lemma {:induction false} MigrationValuesCopies(items: map<string, Stored>, catalog: seq<Profile>, candidates: seq<string>, issued: nat, now: string, i: nat)
    requires forall d :: d in ListPedals(catalog) ==> !StartsWith(d, "v2:")
    requires i < |KnownOnly(catalog, candidates)|
    ensures var id := IdToken(issued + i);
      Lookup(Migrate(items, catalog, candidates, issued, now).items, ValuesStorageKey(id))
        == Lookup(CopiedLegacyValues(items, KnownOnly(catalog, candidates)[i], id), ValuesStorageKey(id))
    decreases |candidates|
  {
    var init := candidates[..|candidates| - 1];
    var m0 := Migrate(items, catalog, init, issued, now);
    if i < |m0.board| {
      MigrationValuesCopies(items, catalog, init, issued, now, i);
      MigrateKeepsEarlier(items, catalog, candidates, issued, now, i);
      KnownOnlyPrefix(catalog, candidates, i);
    } else {
      MigrationValuesCopyLast(items, catalog, candidates, issued, now);
    }
  }

  lemma {:induction false} MigrationSnapshotsCopies(items: map<string, Stored>, catalog: seq<Profile>, candidates: seq<string>, issued: nat, now: string, i: nat)
    requires forall d :: d in ListPedals(catalog) ==> !StartsWith(d, "v2:")
    requires i < |KnownOnly(catalog, candidates)|
    ensures var id := IdToken(issued + i);
      Lookup(Migrate(items, catalog, candidates, issued, now).items, SnapshotsStorageKey(id))
        == Lookup(CopiedLegacySnapshots(items, KnownOnly(catalog, candidates)[i], id), SnapshotsStorageKey(id))
    decreases |candidates|
  {
    var init := candidates[..|candidates| - 1];
    var m0 := Migrate(items, catalog, init, issued, now);
    if i < |m0.board| {
      MigrationSnapshotsCopies(items, catalog, init, issued, now, i);
      MigrateKeepsEarlier(items, catalog, candidates, issued, now, i);
      KnownOnlyPrefix(catalog, candidates, i);
    } else {
      MigrationSnapshotsCopyLast(items, catalog, candidates, issued, now);
    }
  }

  /** One turn of the migration loop: a known device gets a fresh id, its channel and its copied data. */
  method MigrateCandidate(storage: LocalStorage, oracle: Oracle, catalog: seq<Profile>, board: seq<PedalInstance>, device: string)
    returns (next: seq<PedalInstance>)
    modifies storage, oracle
    ensures var m := MigrationStep(Migration(board, old(storage.items), old(oracle.issued)), catalog, device, old(oracle.isoNow));
      storage.items == m.items && oracle.issued == m.issued && next == m.board
    ensures oracle.isoNow == old(oracle.isoNow) && oracle.localeNow == old(oracle.localeNow)
  {
    if device !in ListPedals(catalog) {
      return board;
    }
    var id := oracle.GenerateId();
    var rawChannel := StoredToNumber(storage.GetItem(LegacyChannelKey(device)));
    var fallbackChannel := ProfileChannel(catalog, device);
    var channel := SanitizeChannel(if rawChannel.Some? && IsMidiChannel(rawChannel.value) then rawChannel else fallbackChannel);
    CopyLegacyValues(storage, device, id);
    CopyLegacySnapshots(storage, device, id);
    next := board + [PedalInstance(id, Some(device), channel, oracle.isoNow)];
  }

  /** The migration loop over the candidates, one turn each. */
  method MigrateCandidates(storage: LocalStorage, oracle: Oracle, catalog: seq<Profile>, candidates: seq<string>)
    returns (instances: seq<PedalInstance>)
    modifies storage, oracle
    ensures var m := Migrate(old(storage.items), catalog, candidates, old(oracle.issued), old(oracle.isoNow));
      storage.items == m.items && oracle.issued == m.issued && instances == m.board
    ensures oracle.isoNow == old(oracle.isoNow) && oracle.localeNow == old(oracle.localeNow)
  {
    instances := [];
    ghost var items0 := storage.items;
    ghost var issued0 := oracle.issued;
    for i := 0 to |candidates|
      invariant var m := Migrate(items0, catalog, candidates[..i], issued0, oracle.isoNow);
        storage.items == m.items && oracle.issued == m.issued && instances == m.board
      invariant oracle.isoNow == old(oracle.isoNow) && oracle.localeNow == old(oracle.localeNow)
    {
      ghost var now := oracle.isoNow;
      ghost var before := Migration(instances, storage.items, oracle.issued);
      assert before == Migrate(items0, catalog, candidates[..i], issued0, now);
      assert candidates[..i + 1][..i] == candidates[..i] && candidates[..i + 1][i] == candidates[i];
      MigrateUnfold(items0, catalog, candidates[..i + 1], issued0, now);
      ghost var after := MigrationStep(before, catalog, candidates[i], now);
      assert after == Migrate(items0, catalog, candidates[..i + 1], issued0, now);
      instances := MigrateCandidate(storage, oracle, catalog, instances, candidates[i]);
      assert storage.items == after.items && oracle.issued == after.issued && instances == after.board;
    }
    assert candidates[..|candidates|] == candidates;
  }

  /**
   * `migrateLegacyBoard()`: the board built from the legacy devices, or null when no
   * known device was found.
   */
  method MigrateLegacyBoard(storage: LocalStorage, oracle: Oracle, catalog: seq<Profile>, keyOrder: seq<string>)
    returns (board: Option<seq<PedalInstance>>)
    modifies storage, oracle
    ensures var m := Migrate(old(storage.items), catalog, LegacyDevices(old(storage.items), keyOrder), old(oracle.issued), old(oracle.isoNow));
      && storage.items == m.items && oracle.issued == m.issued
      && board == (if m.board == [] then None else Some(m.board))
    ensures oracle.isoNow == old(oracle.isoNow) && oracle.localeNow == old(oracle.localeNow)
  {
    var candidates := SnapshotLegacyDeviceKeys(storage, keyOrder);
    if |candidates| == 0 {
      return None;
    }
    var instances := MigrateCandidates(storage, oracle, catalog, candidates);
    board := if |instances| > 0 then Some(instances) else None;
  }
}
