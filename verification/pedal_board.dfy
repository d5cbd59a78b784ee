/**
 * The pedal board store `usePedalBoard()` (src/composables/usePedalBoard.ts): the ordered
 * list of pedal instances and the ready flag, replaced and persisted on every change.
 */
module PedalBoard {
  import opened Wrappers
  import opened Json
  import opened Host
  import opened Midi
  import opened Seqs
  import opened StorageKeys
  import opened PedalConfig
  import opened BoardModel
  import opened LegacyMigration

  /**
   * What `ensureDefault()` leaves on an empty board: the migrated board when migration
   * finds a known device, else one default instance; with the storage before the board is
   * persisted and the number of ids handed out.
   */
  function DefaultedBoard(items: map<string, Stored>, catalog: seq<Profile>, keyOrder: seq<string>, issued: nat, now: string): (r: Migration)
    ensures |r.board| >= 1
    ensures var m := Migrate(items, catalog, LegacyDevices(items, keyOrder), issued, now);
      m.board != [] ==> r == m
    ensures var m := Migrate(items, catalog, LegacyDevices(items, keyOrder), issued, now);
      m.board == [] ==> r == Migration([DefaultInstance(catalog, m.issued, now)], m.items, m.issued + 1)
  {
    var m := Migrate(items, catalog, LegacyDevices(items, keyOrder), issued, now);
    if m.board != [] then m
    else Migration([DefaultInstance(catalog, m.issued, now)], m.items, m.issued + 1)
  }

  /** Whether `load()` finds a stored board with at least one instance. */
  predicate RestoresBoard(items: map<string, Stored>, issued: nat, now: string) {
    var restored := LoadedBoard(Lookup(items, BOARD_STORAGE_KEY), issued, now);
    restored.Some? && restored.value != []
  }

  /**
   * What `init()` does with the result of `load()`: a restored board with instances is
   * installed and persisted; otherwise the board held before stays when it has instances,
   * and else the defaulted board is installed and persisted. A board that was empty is
   * never left empty.
   */
  function AfterLoad(items: map<string, Stored>, catalog: seq<Profile>, keyOrder: seq<string>,
                     restored: Option<seq<PedalInstance>>, issued: nat, now: string, current: seq<PedalInstance>): (r: Migration)
    ensures current == [] ==> |r.board| >= 1
    ensures restored.Some? && restored.value != [] ==>
      r.board == restored.value && r.items == items[BOARD_STORAGE_KEY := Doc(BoardJson(r.board))] && r.issued == issued
    ensures !(restored.Some? && restored.value != []) && current != [] ==> r == Migration(current, items, issued)
  {
    if restored.Some? && restored.value != [] then
      Migration(restored.value, items[BOARD_STORAGE_KEY := Doc(BoardJson(restored.value))], issued)
    else if current != [] then Migration(current, items, issued)
    else
      var d := DefaultedBoard(items, catalog, keyOrder, issued, now);
      Migration(d.board, d.items[BOARD_STORAGE_KEY := Doc(BoardJson(d.board))], d.issued)
  }

  /**
   * What `init()` leaves, from the storage, the ids handed out and the clock before it and
   * the board held before it: a restored board with instances is installed and persisted;
   * without one the board held stays when it has instances; an empty board is never left
   * empty.
   */
  function InitOutcome(items: map<string, Stored>, catalog: seq<Profile>, keyOrder: seq<string>,
                       issued: nat, now: string, current: seq<PedalInstance>): Migration
  {
    var stored := Lookup(items, BOARD_STORAGE_KEY);
    AfterLoad(items, catalog, keyOrder, LoadedBoard(stored, issued, now), issued + IdsUsedByLoad(stored), now, current)
  }

  /**
   * After `init()` an empty board is never left empty; a restored board with instances is
   * installed and persisted; without one a board holding instances is kept as it is.
   */
  lemma InitOutcomeCases(items: map<string, Stored>, catalog: seq<Profile>, keyOrder: seq<string>,
                         issued: nat, now: string, current: seq<PedalInstance>)
    ensures var r := InitOutcome(items, catalog, keyOrder, issued, now, current);
      && (current == [] ==> |r.board| >= 1)
      && (RestoresBoard(items, issued, now) ==>
            && Some(r.board) == LoadedBoard(Lookup(items, BOARD_STORAGE_KEY), issued, now)
            && r.items == items[BOARD_STORAGE_KEY := Doc(BoardJson(r.board))])
      && (!RestoresBoard(items, issued, now) && current != [] ==> r.board == current && r.items == items)
  {
  }

  /** The storage after `cleanupInstanceStorage(id)`. */
  function CleanedUp(items: map<string, Stored>, id: string): (r: map<string, Stored>)
    ensures ValuesStorageKey(id) !in r && SnapshotsStorageKey(id) !in r
    ensures forall k :: k != ValuesStorageKey(id) && k != SnapshotsStorageKey(id) ==> Lookup(r, k) == Lookup(items, k)
  {
    items - {ValuesStorageKey(id), SnapshotsStorageKey(id)}
  }

  /**
   * The storage after `duplicateInstance` copies the source's stored values and
   * snapshots, text as it is, to the copy's keys; empty or missing entries are not copied.
   */
  function CopiedInstanceStorage(items: map<string, Stored>, fromId: string, toId: string): (r: map<string, Stored>)
    ensures Truthy(Lookup(items, ValuesStorageKey(fromId))) ==> Lookup(r, ValuesStorageKey(toId)) == Lookup(items, ValuesStorageKey(fromId))
    ensures Truthy(Lookup(items, SnapshotsStorageKey(fromId))) ==> Lookup(r, SnapshotsStorageKey(toId)) == Lookup(items, SnapshotsStorageKey(fromId))
    ensures forall k :: k != ValuesStorageKey(toId) && k != SnapshotsStorageKey(toId) ==> Lookup(r, k) == Lookup(items, k)
  {
    InstanceKeysDiffer(toId, fromId);
    var afterValues :=
      if Truthy(Lookup(items, ValuesStorageKey(fromId))) then items[ValuesStorageKey(toId) := items[ValuesStorageKey(fromId)]]
      else items;
    if Truthy(Lookup(afterValues, SnapshotsStorageKey(fromId))) then afterValues[SnapshotsStorageKey(toId) := afterValues[SnapshotsStorageKey(fromId)]]
    else afterValues
  }

  lemma BoardKeyIsNoInstanceKey(id: string)
    ensures BOARD_STORAGE_KEY != ValuesStorageKey(id) && BOARD_STORAGE_KEY != SnapshotsStorageKey(id)
  {
    assert BOARD_STORAGE_KEY[6] != ValuesStorageKey(id)[6];
    assert BOARD_STORAGE_KEY[6] != SnapshotsStorageKey(id)[6];
  }

  lemma {:induction false} FirstNullIsFirst(items: seq<JsonValue>, i: nat)
    requires i <= FirstNull(items) && i < |items| && items[i] == JNull
    ensures FirstNull(items) == i
  {
    if i > 0 {
      FirstNullIsFirst(items[1..], i - 1);
    }
  }

  lemma {:induction false} FirstNullAfter(items: seq<JsonValue>, i: nat)
    requires i <= FirstNull(items) && i < |items| && items[i] != JNull
    ensures i + 1 <= FirstNull(items)
  {
    if i > 0 {
      FirstNullAfter(items[1..], i - 1);
    }
  }

  /** Taking the element at i out and putting it back at a neighbouring index t swaps the two. */
  lemma SpliceIsSwap(s: seq<PedalInstance>, i: nat, t: nat)
    requires i < |s| && t < |s| && (t == i + 1 || t + 1 == i)
    ensures var rest := s[..i] + s[i + 1..];
      rest[..t] + [s[i]] + rest[t..] == s[i := s[t]][t := s[i]]
  {
    var rest := s[..i] + s[i + 1..];
    var r := rest[..t] + [s[i]] + rest[t..];
    var w := s[i := s[t]][t := s[i]];
    assert |r| == |w|;
    forall j | 0 <= j < |r|
      ensures r[j] == w[j]
    {
      if j < t {
        assert r[j] == rest[j];
      } else if j > t {
        assert r[j] == rest[j - 1];
      }
    }
  }

  /** `usePedalBoard()`: the instances, the ready flag, and the storage and oracles they use. */
  class Board {
    var instances: seq<PedalInstance>
    var ready: bool
    const storage: LocalStorage
    const oracle: Oracle
    /** The known pedal profiles, in `listPedals()` order. */
    const catalog: seq<Profile>

    /** `usePedalBoard()` starts empty and not ready, then runs `init()`. */
    constructor (storage: LocalStorage, oracle: Oracle, catalog: seq<Profile>, keyOrder: seq<string>)
      modifies storage, oracle
      ensures this.storage == storage && this.oracle == oracle && this.catalog == catalog
      ensures ready && |instances| >= 1
      ensures var r := InitOutcome(old(storage.items), catalog, keyOrder, old(oracle.issued), old(oracle.isoNow), []);
        instances == r.board && storage.items == r.items && oracle.issued == r.issued
    {
      this.storage := storage;
      this.oracle := oracle;
      this.catalog := catalog;
      instances := [];
      ready := false;
      new;
      Init(keyOrder);
    }

    /** `persist(next)` */
    method Persist(next: seq<PedalInstance>)
      modifies storage
      ensures storage.items == old(storage.items)[BOARD_STORAGE_KEY := Doc(BoardJson(next))]
    {
      storage.SetItem(BOARD_STORAGE_KEY, Doc(BoardJson(next)));
    }

    /** `setInstances(next)` */
    method SetInstances(next: seq<PedalInstance>)
      modifies this, storage
      ensures instances == next && ready == old(ready)
      ensures storage.items == old(storage.items)[BOARD_STORAGE_KEY := Doc(BoardJson(next))]
    {
      instances := next;
      Persist(next);
    }

    /** `load()`: the stored board, rebuilt item by item, or null. */
    method Load() returns (restored: Option<seq<PedalInstance>>)
      modifies oracle
      ensures var stored := Lookup(old(storage.items), BOARD_STORAGE_KEY);
        && restored == LoadedBoard(stored, old(oracle.issued), old(oracle.isoNow))
        && oracle.issued == old(oracle.issued) + IdsUsedByLoad(stored)
      ensures oracle.isoNow == old(oracle.isoNow) && oracle.localeNow == old(oracle.localeNow)
    {
      var stored := storage.GetItem(BOARD_STORAGE_KEY);
      var parsed := StoredBoardItems(stored);
      if parsed.None? {
        return None;
      }
      restored := RestoreItems(parsed.value);
    }

    /** `parsed.instances.map(...)`: null as soon as an item is null, else every item restored. */
    method RestoreItems(items: seq<JsonValue>) returns (restored: Option<seq<PedalInstance>>)
      modifies oracle
      ensures restored == (if FirstNull(items) == |items| then Some(RestoredBoard(items, old(oracle.issued), oracle.isoNow)) else None)
      ensures oracle.issued == old(oracle.issued) + MissingIdCount(items[..FirstNull(items)])
      ensures oracle.isoNow == old(oracle.isoNow) && oracle.localeNow == old(oracle.localeNow)
    {
      ghost var issued0 := oracle.issued;
      var board: seq<PedalInstance> := [];
      for i := 0 to |items|
        invariant i <= FirstNull(items)
        invariant oracle.issued == issued0 + MissingIdCount(items[..i])
        invariant oracle.isoNow == old(oracle.isoNow) && oracle.localeNow == old(oracle.localeNow)
        invariant board == RestoredBoard(items[..i], issued0, oracle.isoNow)
      {
        var item := items[i];
        RestoredStep(items, i, issued0, oracle.isoNow);
        if item == JNull {
          FirstNullIsFirst(items, i);
          return None;
        }
        FirstNullAfter(items, i);
        var inst := RestoreItem(item);
        board := board + [inst];
      }
      assert items[..|items|] == items;
      restored := Some(board);
    }

    /** The callback `load` maps each stored item with. */
    method RestoreItem(item: JsonValue) returns (inst: PedalInstance)
      modifies oracle
      ensures inst == RestoredInstance(item, IdToken(old(oracle.issued)), oracle.isoNow)
      ensures oracle.issued == old(oracle.issued) + if StringProp(item, "id").None? then 1 else 0
      ensures oracle.isoNow == old(oracle.isoNow) && oracle.localeNow == old(oracle.localeNow)
    {
      var id: string;
      var storedId := StringProp(item, "id");
      if storedId.Some? {
        id := storedId.value;
      } else {
        id := oracle.GenerateId();
      }
      var createdAt := StringProp(item, "createdAt").GetOr(oracle.isoNow);
      inst := PedalInstance(id, StringProp(item, "device"), SanitizeChannel(NumberProp(item, "channel")), createdAt);
    }

    /** `nextChannel(excludeId)`: the least channel no other instance uses, or the fallback. */
    method NextChannel(excludeId: Option<string>) returns (c: MidiChannel)
      ensures c == NextFreeChannel(instances, excludeId)
    {
      var used := UsedChannels(instances, excludeId);
      for k := 1 to 17
        invariant forall j :: 1 <= j < k ==> j in used
      {
        if k !in used {
          return SanitizeChannel(Some(k as real));
        }
      }
      var current := if excludeId.Some? && excludeId.value != "" then FindById(instances, excludeId.value) else None;
      c := if current.Some? then current.value.channel else 1;
    }

    /** `createInstance(device, channelOverride)`, `None` standing for null and undefined. */
    method CreateInstance(device: Option<string>, channelOverride: Option<real>) returns (inst: PedalInstance)
      modifies oracle
      ensures inst.id == IdToken(old(oracle.issued)) && oracle.issued == old(oracle.issued) + 1
      ensures inst.device == CreatedDevice(catalog, device)
      ensures inst.channel == CreatedChannel(catalog, inst.device, channelOverride)
      ensures inst.createdAt == oracle.isoNow
      ensures oracle.isoNow == old(oracle.isoNow) && oracle.localeNow == old(oracle.localeNow)
    {
      var id := oracle.GenerateId();
      var fallbackDevice := if device.Some? then device else DefaultDevice(catalog);
      var fallbackChannel := if channelOverride.Some? then channelOverride else ProfileChannel(catalog, fallbackDevice.GetOr(""));
      inst := PedalInstance(id, fallbackDevice, SanitizeChannel(fallbackChannel), oracle.isoNow);
    }

    /** `ensureDefault()`: an empty board gets the migrated board or one default instance. */
    method EnsureDefault(keyOrder: seq<string>)
      modifies this, storage, oracle
      ensures old(instances) != [] ==>
        && instances == old(instances) && ready == old(ready)
        && storage.items == old(storage.items) && oracle.issued == old(oracle.issued)
      ensures old(instances) == [] ==>
        var d := DefaultedBoard(old(storage.items), catalog, keyOrder, old(oracle.issued), old(oracle.isoNow));
        && ready && instances == d.board && oracle.issued == d.issued
        && storage.items == d.items[BOARD_STORAGE_KEY := Doc(BoardJson(d.board))]
      ensures oracle.isoNow == old(oracle.isoNow) && oracle.localeNow == old(oracle.localeNow)
    {
      if |instances| > 0 {
        return;
      }
      var migrated := MigrateLegacyBoard(storage, oracle, catalog, keyOrder);
      if migrated.Some? && |migrated.value| > 0 {
        SetInstances(migrated.value);
        ready := true;
        return;
      }
      var inst := CreateInstance(None, None);
      SetInstances([inst]);
      ready := true;
    }

    /** `init()`: `load()`, then `FinishInit` with what it restored. */
    method Init(keyOrder: seq<string>)
      modifies this, storage, oracle
      ensures var r := InitOutcome(old(storage.items), catalog, keyOrder, old(oracle.issued), old(oracle.isoNow), old(instances));
        instances == r.board && storage.items == r.items && oracle.issued == r.issued
      ensures ready == (old(ready) || old(instances) == [] || RestoresBoard(old(storage.items), old(oracle.issued), old(oracle.isoNow)))
      ensures oracle.isoNow == old(oracle.isoNow) && oracle.localeNow == old(oracle.localeNow)
    {
      var restored := Load();
      FinishInit(restored, keyOrder);
    }

    /** The rest of `init()`: the restored board when it has instances, else `ensureDefault()`. */
    method FinishInit(restored: Option<seq<PedalInstance>>, keyOrder: seq<string>)
      modifies this, storage, oracle
      ensures var r := AfterLoad(old(storage.items), catalog, keyOrder, restored, old(oracle.issued), old(oracle.isoNow), old(instances));
        instances == r.board && storage.items == r.items && oracle.issued == r.issued
      ensures ready == (old(ready) || old(instances) == [] || (restored.Some? && restored.value != []))
      ensures oracle.isoNow == old(oracle.isoNow) && oracle.localeNow == old(oracle.localeNow)
    {
      if restored.Some? && |restored.value| > 0 {
        SetInstances(restored.value);
        ready := true;
        return;
      }
      EnsureDefault(keyOrder);
    }

    /** `updateInstance(id, patch)` */
    method UpdateInstance(id: string, device: Patch<Option<string>>, channel: Patch<Option<real>>)
      modifies this, storage
      ensures instances == UpdatedInstances(old(instances), id, device, channel) && ready == old(ready)
      ensures storage.items == old(storage.items)[BOARD_STORAGE_KEY := Doc(BoardJson(instances))]
    {
      SetInstances(UpdatedInstances(instances, id, device, channel));
    }

    /**
     * `addInstance(device, channelOverride)`: one new instance at the end, on the
     * override channel (sanitised) or, with no numeric override, the next free channel.
     */
    method AddInstance(device: Option<string>, channelOverride: Option<real>) returns (inst: PedalInstance)
      modifies this, storage, oracle
      ensures instances == old(instances) + [inst] && ready == old(ready)
      ensures inst.id == IdToken(old(oracle.issued)) && oracle.issued == old(oracle.issued) + 1
      ensures inst.device == CreatedDevice(catalog, device) && inst.createdAt == oracle.isoNow
      ensures channelOverride.Some? ==> inst.channel == SanitizeChannel(channelOverride)
      ensures channelOverride.None? ==> inst.channel == NextFreeChannel(old(instances), None)
      ensures storage.items == old(storage.items)[BOARD_STORAGE_KEY := Doc(BoardJson(instances))]
      ensures oracle.isoNow == old(oracle.isoNow) && oracle.localeNow == old(oracle.localeNow)
    {
      var channel: real;
      if channelOverride.Some? {
        channel := channelOverride.value;
      } else {
        var next := NextChannel(None);
        SanitizeKeepsChannels(next, None);
        channel := next as real;
      }
      inst := CreateInstance(device, Some(channel));
      SetInstances(instances + [inst]);
    }

    /**
     * `removeInstance(id)`: the instance-keyed storage of id is cleared, and the instances
     * with that id leave the board; removing the only instance replaces it with a fresh
     * default one. A board with distinct ids never becomes empty.
     */
    method RemoveInstance(id: string)
      modifies this, storage, oracle
      ensures ready == old(ready)
      ensures |old(instances)| == 1 && old(instances)[0].id == id ==>
        && instances == [DefaultInstance(catalog, old(oracle.issued), oracle.isoNow)]
        && oracle.issued == old(oracle.issued) + 1
      ensures !(|old(instances)| == 1 && old(instances)[0].id == id) ==>
        instances == WithoutId(old(instances), id) && oracle.issued == old(oracle.issued)
      ensures storage.items == CleanedUp(old(storage.items), id)[BOARD_STORAGE_KEY := Doc(BoardJson(instances))]
      ensures ValuesStorageKey(id) !in storage.items && SnapshotsStorageKey(id) !in storage.items
      ensures |old(instances)| >= 1 && NoDuplicates(Ids(old(instances))) ==> |instances| >= 1
      ensures oracle.isoNow == old(oracle.isoNow) && oracle.localeNow == old(oracle.localeNow)
    {
      BoardKeyIsNoInstanceKey(id);
      if |instances| <= 1 {
        if |instances| == 1 && instances[0].id == id {
          storage.RemoveItem(ValuesStorageKey(id));
          storage.RemoveItem(SnapshotsStorageKey(id));
          assert storage.items == CleanedUp(old(storage.items), id);
          var replacement := CreateInstance(None, None);
          SetInstances([replacement]);
          return;
        }
      }
      storage.RemoveItem(ValuesStorageKey(id));
      storage.RemoveItem(SnapshotsStorageKey(id));
      assert storage.items == CleanedUp(old(storage.items), id);
      if |instances| >= 1 && NoDuplicates(Ids(instances)) {
        WithoutIdRemovesAtMostOne(instances, id);
      }
      SetInstances(WithoutId(instances, id));
    }

    /**
     * `duplicateInstance(id)`: null and no change for an unknown id; otherwise a copy of
     * the first instance with that id is appended on the next channel in the cycle (or the
     * next free one when that is taken), and its stored values and snapshots are copied.
     */
    method DuplicateInstance(id: string) returns (r: Option<PedalInstance>)
      modifies this, storage, oracle
      ensures ready == old(ready)
      ensures FindById(old(instances), id).None? ==>
        && r.None? && instances == old(instances)
        && storage.items == old(storage.items) && oracle.issued == old(oracle.issued)
      ensures FindById(old(instances), id).Some? ==>
        var source := FindById(old(instances), id).value;
        && r.Some? && instances == old(instances) + [r.value]
        && r.value.id == IdToken(old(oracle.issued)) && oracle.issued == old(oracle.issued) + 1
        && r.value.device == CreatedDevice(catalog, source.device)
        && r.value.channel == DuplicateChannel(old(instances), source.channel)
        && r.value.createdAt == oracle.isoNow
        && storage.items == CopiedInstanceStorage(old(storage.items)[BOARD_STORAGE_KEY := Doc(BoardJson(instances))], id, r.value.id)
      ensures oracle.isoNow == old(oracle.isoNow) && oracle.localeNow == old(oracle.localeNow)
    {
      var source := FindById(instances, id);
      if source.None? {
        return None;
      }
      var next: MidiChannel := Successor(source.value.channel);
      if exists inst :: inst in instances && inst.channel == next {
        next := NextChannel(None);
      }
      SanitizeKeepsChannels(next, None);
      var instance := CreateInstance(source.value.device, Some(next as real));
      SetInstances(instances + [instance]);
      var srcValues := storage.GetItem(ValuesStorageKey(id));
      if Truthy(srcValues) {
        storage.SetItem(ValuesStorageKey(instance.id), srcValues.value);
      }
      var srcSnapshots := storage.GetItem(SnapshotsStorageKey(id));
      if Truthy(srcSnapshots) {
        storage.SetItem(SnapshotsStorageKey(instance.id), srcSnapshots.value);
      }
      r := Some(instance);
    }

    /**
     * `moveInstance(id, direction)`: the instance is taken out and put back one place up
     * or down, which trades it with its neighbour; nothing happens (and nothing is
     * persisted) for an unknown id or a move past either end.
     */
    method MoveInstance(id: string, direction: Direction)
      modifies this, storage
      ensures instances == MovedInstances(old(instances), id, direction) && ready == old(ready)
      ensures MoveTarget(|old(instances)|, IndexOfId(old(instances), id), direction).None? ==>
        storage.items == old(storage.items)
      ensures MoveTarget(|old(instances)|, IndexOfId(old(instances), id), direction).Some? ==>
        storage.items == old(storage.items)[BOARD_STORAGE_KEY := Doc(BoardJson(instances))]
    {
      var idx := IndexOfId(instances, id);
      if idx < 0 {
        return;
      }
      if direction == Up && idx == 0 {
        return;
      }
      if direction == Down && idx == |instances| - 1 {
        return;
      }
      var target := if direction == Up then idx - 1 else idx + 1;
      var next := instances;
      var removed := next[idx];
      next := next[..idx] + next[idx + 1..];
      next := next[..target] + [removed] + next[target..];
      SpliceIsSwap(instances, idx, target);
      SetInstances(next);
    }
  }
}
