/**
 * The storage key scheme (src/composables/storageKeys.ts). Instance-keyed values live
 * under "pedal-values:v2:<id>"; the pre-board scheme keyed values and channels by device
 * name under "pedal-values:<device>" and "pedal-channel:<device>". The snapshot helpers
 * the board imports (`snapshotsStorageKey`, `isLegacySnapshotsKey`,
 * `legacyDeviceFromSnapshotsKey`) are not in the shown key file; they are defined here
 * by analogy with the value helpers, with the legacy prefix "pedal-snapshots:" that the
 * board and the snapshot store use literally.
 */
module StorageKeys {
  import opened JsText

  const BOARD_STORAGE_KEY := "pedal-board:v2"
  const VALUES_PREFIX := "pedal-values:v2:"
  const LEGACY_VALUES_PREFIX := "pedal-values:"
  const LEGACY_CHANNEL_PREFIX := "pedal-channel:"
  const SNAPSHOTS_PREFIX := "pedal-snapshots:v2:"
  const LEGACY_SNAPSHOTS_PREFIX := "pedal-snapshots:"
  /** The device last selected under the pre-board scheme. */
  const LEGACY_SELECTED_KEY := "pedal-selected"

  /** `valuesStorageKey(instanceId)` */
  function ValuesStorageKey(instanceId: string): (k: string)
    ensures StartsWith(k, VALUES_PREFIX) && SliceFrom(k, |VALUES_PREFIX|) == instanceId
  {
    VALUES_PREFIX + instanceId
  }

  /** `isLegacyValuesKey(key)` */
  predicate IsLegacyValuesKey(key: string) {
    StartsWith(key, LEGACY_VALUES_PREFIX) && !StartsWith(key, VALUES_PREFIX)
  }

  /** `legacyDeviceFromValuesKey(key)` */
  function LegacyDeviceFromValuesKey(key: string): string {
    SliceFrom(key, |LEGACY_VALUES_PREFIX|)
  }

  /** The legacy values key of a device, `pedal-values:${device}`. */
  function LegacyValuesKey(device: string): string {
    LEGACY_VALUES_PREFIX + device
  }

  /** `legacyChannelKey(device)` */
  function LegacyChannelKey(device: string): string {
    LEGACY_CHANNEL_PREFIX + device
  }

  /** `snapshotsStorageKey(instanceId)`, by analogy with `valuesStorageKey` */
  function SnapshotsStorageKey(instanceId: string): (k: string)
    ensures StartsWith(k, SNAPSHOTS_PREFIX) && SliceFrom(k, |SNAPSHOTS_PREFIX|) == instanceId
  {
    SNAPSHOTS_PREFIX + instanceId
  }

  /** `isLegacySnapshotsKey(key)`, by analogy with `isLegacyValuesKey` */
  predicate IsLegacySnapshotsKey(key: string) {
    StartsWith(key, LEGACY_SNAPSHOTS_PREFIX) && !StartsWith(key, SNAPSHOTS_PREFIX)
  }

  /** `legacyDeviceFromSnapshotsKey(key)`, by analogy with `legacyDeviceFromValuesKey` */
  function LegacyDeviceFromSnapshotsKey(key: string): string {
    SliceFrom(key, |LEGACY_SNAPSHOTS_PREFIX|)
  }

  /** The legacy snapshots key of a device, `pedal-snapshots:${device}`. */
  function LegacySnapshotsKey(device: string): string {
    LEGACY_SNAPSHOTS_PREFIX + device
  }

  lemma PrefixOfConcat(p: string, d: string, q: string)
    ensures StartsWith(p + d, q) <==> (|q| <= |p| && StartsWith(p, q)) || (|q| > |p| && StartsWith(d, q[|p|..]) && q[..|p|] == p)
  {
    var s := p + d;
    if |q| <= |p| {
      assert s[..|q|] == p[..|q|];
    } else if |q| <= |s| {
      assert s[..|q|] == p + d[..|q| - |p|];
      if StartsWith(s, q) {
        assert q[..|p|] == s[..|q|][..|p|] == p;
        assert q[|p|..] == s[..|q|][|p|..] == d[..|q| - |p|];
      }
      if q[..|p|] == p && StartsWith(d, q[|p|..]) {
        assert q == q[..|p|] + q[|p|..];
      }
    }
  }

  /** Instance-keyed values are never mistaken for legacy ones, so migration never re-reads them. */
  lemma ValuesKeyIsNotLegacy(instanceId: string)
    ensures !IsLegacyValuesKey(ValuesStorageKey(instanceId))
  {
  }

  /** A legacy values key is legacy exactly when the device name does not start with "v2:". */
  lemma LegacyValuesKeyIff(device: string)
    ensures IsLegacyValuesKey(LegacyValuesKey(device)) <==> !StartsWith(device, "v2:")
  {
    PrefixOfConcat(LEGACY_VALUES_PREFIX, device, LEGACY_VALUES_PREFIX);
    PrefixOfConcat(LEGACY_VALUES_PREFIX, device, VALUES_PREFIX);
    assert VALUES_PREFIX[..|LEGACY_VALUES_PREFIX|] == LEGACY_VALUES_PREFIX;
    assert VALUES_PREFIX[|LEGACY_VALUES_PREFIX|..] == "v2:";
  }

  /** A legacy snapshots key is legacy exactly when the device name does not start with "v2:". */
  lemma LegacySnapshotsKeyIff(device: string)
    ensures IsLegacySnapshotsKey(LegacySnapshotsKey(device)) <==> !StartsWith(device, "v2:")
  {
    PrefixOfConcat(LEGACY_SNAPSHOTS_PREFIX, device, LEGACY_SNAPSHOTS_PREFIX);
    PrefixOfConcat(LEGACY_SNAPSHOTS_PREFIX, device, SNAPSHOTS_PREFIX);
    assert SNAPSHOTS_PREFIX[..|LEGACY_SNAPSHOTS_PREFIX|] == LEGACY_SNAPSHOTS_PREFIX;
    assert SNAPSHOTS_PREFIX[|LEGACY_SNAPSHOTS_PREFIX|..] == "v2:";
  }

  /** The device named in a legacy values key is read back unchanged. */
  lemma LegacyValuesKeyRoundTrip(device: string)
    ensures LegacyDeviceFromValuesKey(LegacyValuesKey(device)) == device
  {
  }

  /** Stripping the channel prefix, as the migration scan does, gives back the device. */
  lemma LegacyChannelKeyRoundTrip(device: string)
    ensures StartsWith(LegacyChannelKey(device), "pedal-channel:")
    ensures SliceFrom(LegacyChannelKey(device), |"pedal-channel:"|) == device
  {
    assert LegacyChannelKey(device)[..|LEGACY_CHANNEL_PREFIX|] == LEGACY_CHANNEL_PREFIX;
  }

  /** The board key belongs to neither legacy scheme. */
  lemma BoardKeyIsNotLegacy()
    ensures !IsLegacyValuesKey(BOARD_STORAGE_KEY)
    ensures !IsLegacySnapshotsKey(BOARD_STORAGE_KEY)
    ensures !StartsWith(BOARD_STORAGE_KEY, LEGACY_CHANNEL_PREFIX)
  {
    assert BOARD_STORAGE_KEY[..|LEGACY_VALUES_PREFIX|] != LEGACY_VALUES_PREFIX by {
      assert BOARD_STORAGE_KEY[6] != LEGACY_VALUES_PREFIX[6];
    }
    assert |BOARD_STORAGE_KEY| < |LEGACY_SNAPSHOTS_PREFIX|;
    assert BOARD_STORAGE_KEY[..|LEGACY_CHANNEL_PREFIX|] != LEGACY_CHANNEL_PREFIX by {
      assert BOARD_STORAGE_KEY[6] != LEGACY_CHANNEL_PREFIX[6];
    }
  }

  /** An instance's values key is never another instance's snapshots key. */
  lemma InstanceKeysDiffer(valuesId: string, snapshotsId: string)
    ensures ValuesStorageKey(valuesId) != SnapshotsStorageKey(snapshotsId)
  {
    assert ValuesStorageKey(valuesId)[6] != SnapshotsStorageKey(snapshotsId)[6];
  }

  /** Keys under the legacy channel prefix never clash with instance-keyed storage keys. */
  lemma ChannelKeysAreApart(device: string, instanceId: string)
    ensures LegacyChannelKey(device) != ValuesStorageKey(instanceId)
    ensures LegacyChannelKey(device) != SnapshotsStorageKey(instanceId)
  {
    assert LegacyChannelKey(device)[6] == 'c' && ValuesStorageKey(instanceId)[6] == 'v';
    assert SnapshotsStorageKey(instanceId)[6] == 's';
  }
}
