# mako-editor core, modelled in Dafny

mako-editor is a browser editor for MIDI guitar pedals. The user keeps a **pedal board**: an ordered list of pedal instances. Each instance names a device profile and a MIDI channel from 1 to 16. The editor sends Control Change and Program Change frames to a Web MIDI output. Everything the user edits is kept in `localStorage`:

- the board;
- the control values and snapshots of each instance;
- in the older device-keyed scheme, per-device values, snapshots and channels, which the board migrates once.

This project models the following parts of the editor and proves what each promises:

- **MIDI primitives and frames.** Channel and seven-bit validation (`src/domain/midi.ts`), and the two frame builders (`src/domain/commands.ts`). These are checked against the Channel Voice Messages of the MIDI 1.0 Detailed Specification ("Summary of MIDI Messages"), and a reference decoder reads every built frame back.
- **The older clamping sender** `src/core/midi/midi.ts`. It clamps the channel and masks the data bytes with bitwise `&`/`|`, computed on integers.
- **The storage key scheme** (`src/composables/storageKeys.ts`).
- **The pedal board store** (`src/composables/usePedalBoard.ts`). This covers:
  - restoring a stored board;
  - the one-shot legacy migration;
  - free-channel allocation;
  - add, update, remove, duplicate and move, each with its storage effects.

  The list operations are functions on values (`BoardModel`). The store is a class whose methods change its `instances` and the storage, and each method is proved against those functions (`PedalBoard`, `LegacyMigration`).
- **The device-keyed stores:**
  - control values (`src/composables/useControlValues.ts`);
  - snapshots (`src/composables/useSnapshots.ts`);
  - the channel watchers (`src/composables/usePedalChannel.ts`).
- **The MIDI output store.** `createMidiStore` (`src/ui/composables/useMidiStore.ts`) and its module-level twin `midiStore` (`src/store/midi.store.ts`) behave identically, so one class `MidiStore.Store` models both. The first reaches its gateway (`src/adapters/infrastructure/midi/web-midi.gateway.ts`) through `MidiService` (`src/core/services/midi-service.ts`), which only forwards; the second calls `src/infrastructure/webmidi.gateway.ts` directly. The two gateways have the same code, and one class `MidiStore.Gateway` models them.
- **Control visibility** (`src/config/visibility.ts`).
- **The interface-language choice** (`src/app/i18n.ts`).

## Modelling conventions

- **Storage.** `localStorage` is the class `Host.LocalStorage`, a map from keys to stored items. An item is either raw text (`Raw`, what `setItem(key, String(x))` writes) or a JSON document (`Doc`, what `setItem(key, JSON.stringify(x))` writes). `JSON.parse` returns the document back, and raw text does not parse.
- **Browser inputs are parameters.** The order in which `localStorage.key(i)` enumerates keys is a parameter (`keyOrder`), and so is `navigator.language`.
- **Fresh ids and clock readings.** `generateId()` and the clock come from the class `Host.Oracle`. Ids are `IdToken(n)` ("id-" followed by the decimal n) for a counter `n`, which makes the ids handed out pairwise distinct (`Host.IdTokenInjective`); they are not guaranteed to differ from ids restored from storage. The ISO and locale timestamps are opaque strings.
- **Numbers.** A JavaScript number is a `real`, so NaN and the infinities do not exist in the model. `Number(text)` yields `None` where JavaScript yields NaN.
- **Thrown errors** become `Result`/`Option` values. The MIDI error messages are the datatype `Midi.MidiError`, which carries what each message interpolates.
- **The pedal catalogue** (`src/config/pedalConfig.ts`) is a sequence of profiles already in display order.
- **Vue reactivity.** A watcher is an explicit method that the caller invokes when the watched value changes.
- **Snapshot key helpers.** `usePedalBoard.ts` imports three helpers that `storageKeys.ts` does not define: `snapshotsStorageKey`, `isLegacySnapshotsKey` and `legacyDeviceFromSnapshotsKey`. They are defined by analogy with the value-key helpers, using the literal prefix `pedal-snapshots:` that the board and the snapshot store use.

## Model

| member | source | states |
|---|---|---|
| Midi.MidiChannelLiterals | src/domain/midi.ts:3-19 | `isMidiChannel(n)` accepts exactly the sixteen literals 1..16 of the `MidiChannel` type |
| Midi.AsMidiChannel | src/domain/midi.ts:21-26 | succeeds iff `isMidiChannel(n)`, returns n unchanged (never clamps), and otherwise fails with the invalid-channel error carrying n |
| Midi.AssertSevenBit | src/domain/midi.ts:28-33 | succeeds iff the value is an integer in [0,127], returns it unchanged, and otherwise fails with an out-of-range error carrying the label and the value |
| Commands.BuildProgramChangeBytes | src/domain/commands.ts:5-9 | succeeds iff the program is a seven-bit value; the frame is exactly 2 bytes: status high nibble 0xC, low nibble channel−1, then the program byte (< 0x80); otherwise the "Program" range error; the channel is not re-checked |
| Commands.BuildControlChangeBytes | src/domain/commands.ts:11-16 | succeeds iff controller and value are seven-bit; exactly 3 bytes: status 0xB with low nibble channel−1, then controller and value (< 0x80); the controller is checked first, so a bad controller reports "Controller" |
| Commands.ProgramChangeRoundTrip | src/domain/commands.ts:5-9 | a MIDI 1.0 receiver decodes every built Program Change as the same channel and program |
| Commands.ControlChangeRoundTrip | src/domain/commands.ts:11-16 | a MIDI 1.0 receiver decodes every built Control Change as the same channel, controller and value |
| Commands.WorkedFrames | src/domain/commands.ts:5-16 | worked frames: CC 7=100 on channels 1 and 16 are B0 07 64 and BF 07 64; program 5 on channel 10 is C9 05 |
| CoreMidi.ClampChannel | src/core/midi/midi.ts:14 | the floored channel is kept when it lies in 1..16, and clamped to 1 below and to 16 above |
| CoreMidi.StatusByte | src/core/midi/midi.ts:15 | the status byte is always in [0xB0,0xBF] and equals 0xB0 + channel − 1 |
| CoreMidi.StatusByteValue | src/core/midi/midi.ts:15 | the bitwise `0xB0 \| ((ch − 1) & 0x0F)` equals 0xB0 + ch − 1 for every channel |
| CoreMidi.Mask7 | src/core/midi/midi.ts:16 | `x & 0x7F` is always a data byte in [0,127], and equals the Euclidean remainder of the truncated value modulo 128 |
| CoreMidi.Mask7Value | src/core/midi/midi.ts:16 | the bitwise and of the 32-bit pattern of x with 0x7F equals trunc(x) mod 128 |
| CoreMidi.ControlChangeFrame | src/core/midi/midi.ts:14-16 | exactly 3 bytes: a CC status on the clamped channel, then the masked controller and value, each in [0,127] |
| CoreMidi.MidiService.constructor | src/core/midi/midi.ts:2 | the service starts with no output and has sent nothing; the ports whose `send` throws are the browser's, given |
| CoreMidi.MidiService.Init | src/core/midi/midi.ts:4-8 | the output becomes the first output found, or none |
| CoreMidi.MidiService.IsReady | src/core/midi/midi.ts:10 | ready iff an output is set |
| CoreMidi.MidiService.SendCC | src/core/midi/midi.ts:12-17 | with no output, nothing is sent and nothing is thrown; an output whose `send` throws passes its error out uncaught and receives nothing; any other output receives exactly the one 3-byte frame `ControlChangeFrame` |
| JsText.StringToNumber | src/composables/usePedalChannel.ts:15 | `Number(text)`: the empty text (what a missing item coerces to) is 0, a digit string is its decimal value, and every number produced is an integer |
| JsText.DecimalRoundTrip | src/composables/usePedalChannel.ts:15-30 | `Number(String(n))` gives n back for every natural number |
| JsText.DecimalInjective | src/composables/usePedalChannel.ts:30 | distinct numbers are written as distinct texts |
| JsText.ToLower | src/app/i18n.ts:23 | `toLowerCase` on the ASCII letters: A-Z become a-z, every other character is kept, and so is the length |
| StorageKeys.ValuesStorageKey | src/composables/storageKeys.ts:3-9 | the key is "pedal-values:v2:" followed by the instance id, and stripping the prefix gives the id back |
| StorageKeys.SnapshotsStorageKey | src/composables/usePedalBoard.ts:108 | the key is "pedal-snapshots:v2:" followed by the instance id, and stripping the prefix gives the id back |
| StorageKeys.ValuesKeyIsNotLegacy | src/composables/storageKeys.ts:11-13 | no instance values key is a legacy values key, so migrated keys are never re-read as legacy |
| StorageKeys.LegacyValuesKeyIff | src/composables/storageKeys.ts:11-13 | "pedal-values:" + d is a legacy values key iff d does not start with "v2:" |
| StorageKeys.LegacySnapshotsKeyIff | src/composables/usePedalBoard.ts:50 | "pedal-snapshots:" + d is a legacy snapshots key iff d does not start with "v2:" |
| StorageKeys.LegacyValuesKeyRoundTrip | src/composables/storageKeys.ts:15-17 | `legacyDeviceFromValuesKey("pedal-values:" + d) == d` |
| StorageKeys.LegacyChannelKeyRoundTrip | src/composables/storageKeys.ts:19-21 | `legacyChannelKey(d)` starts with "pedal-channel:", and slicing that prefix off, as the migration scan does, gives d back |
| StorageKeys.BoardKeyIsNotLegacy | src/composables/storageKeys.ts:1 | the board key is neither a legacy values key, a legacy snapshots key nor a channel key |
| StorageKeys.InstanceKeysDiffer | src/composables/usePedalBoard.ts:117-118 | an instance values key never equals an instance snapshots key |
| StorageKeys.ChannelKeysAreApart | src/composables/storageKeys.ts:19-21 | a legacy channel key is never an instance values or snapshots key |
| PedalConfig.ListPedals | src/config/pedalConfig.ts:28-33 | one device name per profile, in catalogue order |
| PedalConfig.GetPedalByDevice | src/config/pedalConfig.ts:35-37 | finds a profile iff the device is listed; the profile found has that device |
| PedalConfig.GetPedalByDeviceFindsFirst | src/config/pedalConfig.ts:35-37 | the profile found is the first one with that device |
| PedalConfig.DefaultDevice | src/composables/usePedalBoard.ts:176 | `listPedals()[0]?.value`: present iff the catalogue is non-empty, and then the first listed device |
| Visibility.VisibleOnly | src/config/visibility.ts:6 | never longer than the input; holds exactly the controls whose `hidden` is not true |
| Visibility.GetVisibleControls | src/config/visibility.ts:4-7 | empty without a profile; otherwise exactly the profile's controls that are not hidden |
| Visibility.VisibleOnlyKeepsOrder | src/config/visibility.ts:6 | the result is a subsequence of the controls, keeps every visible control with its multiplicity, and drops every hidden one |
| Visibility.VisibleOnlyIdempotent | src/config/visibility.ts:6 | filtering the result again changes nothing |
| Host.Oracle.GenerateId | src/composables/usePedalBoard.ts:25-30 | each call returns the next fresh id and leaves the clock readings as they were |
| Host.IdTokenInjective | src/composables/usePedalBoard.ts:25-30 | ids handed out at different counts are different |
| BoardModel.SanitizeChannel | src/composables/usePedalBoard.ts:32-37 | a number that is a valid channel is returned unchanged; anything else, including null and undefined, becomes 1 |
| BoardModel.SanitizeKeepsChannels | src/composables/usePedalBoard.ts:32-37 | every channel survives sanitising, so sanitising is idempotent |
| BoardModel.StoredBoardItems | src/composables/usePedalBoard.ts:140-145 | null is returned before mapping when nothing is stored, the text is empty, it does not parse, or `instances` is not an array; otherwise the items are that array |
| BoardModel.RestoredInstance | src/composables/usePedalBoard.ts:147-152 | a string id is kept, else the generated id is used; a string device is kept and any other device becomes null; a string `createdAt` is kept, else the current time is used; the channel is sanitised |
| BoardModel.RestoredBoard | src/composables/usePedalBoard.ts:146-152 | one instance per item, in order: instance i is item i restored, and the fresh id it is offered is the one after those taken by the items before it |
| BoardModel.RestoredStep | src/composables/usePedalBoard.ts:146-152 | restoring one more item appends its instance, with the next fresh id when it has no string id, and counts that id |
| BoardModel.LoadedBoard | src/composables/usePedalBoard.ts:138-156 | `load()` is null when there is no stored array, and otherwise fails exactly when some item is null; when it succeeds it is the stored items restored in order |
| BoardModel.FirstNull | src/composables/usePedalBoard.ts:147-148 | the first null item, where reading `item.id` throws; every item before it can be restored |
| BoardModel.InstanceRoundTrip | src/composables/usePedalBoard.ts:128-152 | an instance written by `persist` is rebuilt identically by `load` |
| BoardModel.NoMissingIds | src/composables/usePedalBoard.ts:148 | restoring a persisted board generates no ids |
| BoardModel.RestoredBoardItems | src/composables/usePedalBoard.ts:146-152 | restoring the items of a persisted board gives the board back, in order |
| BoardModel.NoNullItems | src/composables/usePedalBoard.ts:147-148 | a persisted board has no null item, so `load` does not throw on it |
| BoardModel.BoardRoundTrip | src/composables/usePedalBoard.ts:128-156 | round trip: `load()` after `persist(board)` returns exactly the board and uses no fresh ids |
| BoardModel.FindById | src/composables/usePedalBoard.ts:244 | finds an instance with that id, or none iff no instance has it; the one found is the first, at `IndexOfId` |
| BoardModel.FallbackChannel | src/composables/usePedalBoard.ts:170-171 | when all channels are taken: the channel of the excluded instance if it exists, else 1 |
| BoardModel.FirstFree | src/composables/usePedalBoard.ts:165-169 | the smallest channel from the start that is not used, or none when all are used |
| BoardModel.NextFreeChannel | src/composables/usePedalBoard.ts:163-172 | the smallest channel in 1..16 not used by any instance other than the excluded one; when all sixteen are used, the fallback channel |
| BoardModel.UsedChannelsBound | src/composables/usePedalBoard.ts:164 | a board uses at most as many channels as it has instances |
| BoardModel.AddedChannelIsFree | src/composables/usePedalBoard.ts:163-172 | with fewer than 16 instances, `nextChannel()` is a channel no instance uses, so 16 additions without an override get 16 distinct channels; once all 16 are taken the next one is 1 |
| BoardModel.Successor | src/composables/usePedalBoard.ts:246-247 | `source.channel + 1`, wrapping 16 to 1 |
| BoardModel.DuplicateChannel | src/composables/usePedalBoard.ts:246-250 | the successor channel when no instance uses it, else `nextChannel()` |
| BoardModel.DuplicateChannelIsFree | src/composables/usePedalBoard.ts:246-250 | while some channel is free, a duplicate's channel is not used by any instance |
| BoardModel.CreatedDevice | src/composables/usePedalBoard.ts:176 | a given device string is kept (the empty one included); a null or missing device becomes the catalogue's first device, or null for an empty catalogue |
| BoardModel.CreatedChannel | src/composables/usePedalBoard.ts:177-181 | the sanitised override when one is given, else the sanitised default channel of the device's profile |
| BoardModel.DefaultInstance | src/composables/usePedalBoard.ts:174-184 | `createInstance()`: a fresh id, the first catalogue device, that profile's sanitised channel, and the creation time |
| BoardModel.UpdatedInstances | src/composables/usePedalBoard.ts:209-220 | length, ids, order and creation times are kept; only instances with the id change; a kept field stays; a given channel is re-sanitised |
| BoardModel.EmptyPatchChangesNothing | src/composables/usePedalBoard.ts:215-216 | a patch that gives neither field leaves the list unchanged |
| BoardModel.WithoutId | src/composables/usePedalBoard.ts:240 | never longer; keeps exactly the instances with another id, each as many times as it occurs; an unknown id leaves the list unchanged |
| BoardModel.WithoutIdKeepsOrder | src/composables/usePedalBoard.ts:240 | the filtered list is a subsequence of the original, so order is preserved |
| BoardModel.WithoutIdRemovesAtMostOne | src/composables/usePedalBoard.ts:240 | on a board with distinct ids, the filter removes at most one instance |
| BoardModel.IndexOfId | src/composables/usePedalBoard.ts:268 | the first index with the id, or −1 iff there is none |
| BoardModel.MoveTarget | src/composables/usePedalBoard.ts:269-272 | no move for an unknown id, for up at index 0 or for down at the last index; otherwise the neighbour above or below |
| BoardModel.MovedInstances | src/composables/usePedalBoard.ts:267-277 | always a permutation of the same length; a no-op in the three cases above; otherwise the instance and its neighbour swap and every other position is unchanged |
| BoardModel.SwapIsPermutation | src/composables/usePedalBoard.ts:273-275 | swapping two positions keeps the multiset of instances |
| PedalBoard.SpliceIsSwap | src/composables/usePedalBoard.ts:273-275 | removing an element and re-inserting it next to its old place is a swap with the neighbour |
| PedalBoard.DefaultedBoard | src/composables/usePedalBoard.ts:186-197 | what `ensureDefault` installs on an empty board: exactly the migrated board when migration yields instances, else one default instance after the migration's ids and storage; never empty |
| PedalBoard.AfterLoad | src/composables/usePedalBoard.ts:201-206 | a restored board with instances is installed and persisted; otherwise a board holding instances is kept with storage and ids unchanged; an empty board is never left empty |
| PedalBoard.InitOutcomeCases | src/composables/usePedalBoard.ts:199-207 | after `init()` an empty board is non-empty; when the stored board restores with instances it is exactly `LoadedBoard` of the stored item and is persisted; otherwise a board holding instances is kept and the storage is unchanged |
| PedalBoard.CleanedUp | src/composables/usePedalBoard.ts:114-122 | the instance's values and snapshots keys are gone, and every other key is unchanged |
| PedalBoard.CopiedInstanceStorage | src/composables/usePedalBoard.ts:253-263 | a non-empty values or snapshots item of the source is copied verbatim to the new id's key; nothing else changes |
| PedalBoard.BoardKeyIsNoInstanceKey | src/composables/storageKeys.ts:1-9 | the board key is no instance values or snapshots key |
| PedalBoard.Board.constructor | src/composables/usePedalBoard.ts:279 | `usePedalBoard()` starts with an empty, unready board and runs `init()`: the board, the storage and the ids handed out become `InitOutcome` of the state before with an empty board, and the board is ready and non-empty |
| PedalBoard.Board.Persist | src/composables/usePedalBoard.ts:128-136 | the board document is written under "pedal-board:v2", and nothing else changes |
| PedalBoard.Board.SetInstances | src/composables/usePedalBoard.ts:158-161 | the list is replaced and persisted |
| PedalBoard.Board.Load | src/composables/usePedalBoard.ts:138-156 | returns `LoadedBoard` of the stored item and consumes one fresh id per item without a string id |
| PedalBoard.Board.RestoreItems | src/composables/usePedalBoard.ts:146-152 | the `map` over the stored items: the restored board when no item is null, else null; one fresh id is consumed per item without a string id up to the first null item |
| PedalBoard.Board.RestoreItem | src/composables/usePedalBoard.ts:147-152 | rebuilds one item, generating an id only when the item has no string id |
| PedalBoard.Board.NextChannel | src/composables/usePedalBoard.ts:163-172 | the loop returns `NextFreeChannel` |
| PedalBoard.Board.CreateInstance | src/composables/usePedalBoard.ts:174-184 | a fresh id, the created device and channel, and the current time |
| PedalBoard.Board.EnsureDefault | src/composables/usePedalBoard.ts:186-197 | a non-empty board is left alone; an empty one receives the defaulted board, persisted, and becomes ready |
| PedalBoard.Board.Init | src/composables/usePedalBoard.ts:199-207 | the board, the storage and the ids handed out become `InitOutcome` of the state before; the board is ready afterwards iff it was ready, was empty, or `load()` restored instances |
| PedalBoard.Board.FinishInit | src/composables/usePedalBoard.ts:201-206 | given what `load()` returned, the board, storage and ids become `AfterLoad` of the state before; ready as for `Init` |
| PedalBoard.Board.UpdateInstance | src/composables/usePedalBoard.ts:209-220 | the list becomes `UpdatedInstances` and is persisted |
| PedalBoard.Board.AddInstance | src/composables/usePedalBoard.ts:222-227 | exactly one new instance is appended and the others are unchanged and in order; its channel is the sanitised override, or `nextChannel()` without one; the list is persisted |
| PedalBoard.Board.RemoveInstance | src/composables/usePedalBoard.ts:229-241 | the sole instance is replaced by a fresh default instance; otherwise the list is filtered (an unknown id changes nothing); both instance keys of the id are deleted in every case; a non-empty board with distinct ids stays non-empty |
| PedalBoard.Board.DuplicateInstance | src/composables/usePedalBoard.ts:243-265 | an unknown id returns null and changes nothing; otherwise a copy with `CreatedDevice` of the source's device (its own device, or the catalogue's first one when it has none) and `DuplicateChannel` is appended and persisted, and the source's stored values and snapshots are copied verbatim to the new id |
| PedalBoard.Board.MoveInstance | src/composables/usePedalBoard.ts:267-277 | the list becomes `MovedInstances`; it is persisted only when something moved |
| LegacyMigration.LegacyKeysNameTheirDevice | src/composables/usePedalBoard.ts:47-54 | every legacy values, snapshots and channel key yields its device back; instance keys and the board key yield none |
| LegacyMigration.AddDevice | src/composables/usePedalBoard.ts:42-44 | `Set.add`: the device is present afterwards, no other is added, and no duplicates arise |
| LegacyMigration.ScanHasNoDuplicates | src/composables/usePedalBoard.ts:42-56 | the scan lists each device once |
| LegacyMigration.ScanMembership | src/composables/usePedalBoard.ts:45-55 | a device is listed iff it was seeded or some key names it |
| LegacyMigration.LegacyDevicesCharacterised | src/composables/usePedalBoard.ts:39-57 | when the key order enumerates exactly the stored keys: the candidates are distinct, and they are exactly the saved selection plus every device some stored legacy key names |
| LegacyMigration.SnapshotLegacyDeviceKeys | src/composables/usePedalBoard.ts:39-57 | the loop over the keys returns `LegacyDevices` |
| LegacyMigration.CopiedLegacyValues | src/composables/usePedalBoard.ts:85-98 | a present, non-empty and parsable legacy values payload is stored, wrapped with its device, under the instance's values key; otherwise nothing changes |
| LegacyMigration.SnapshotsPayloadFor | src/composables/usePedalBoard.ts:104-107 | a bare array is wrapped with the device; otherwise the payload's `snapshots`, defaulting to an empty list |
| LegacyMigration.CopiedLegacySnapshots | src/composables/usePedalBoard.ts:100-112 | as for values, under the instance's snapshots key, with `SnapshotsPayloadFor` |
| LegacyMigration.CopyLegacyValues | src/composables/usePedalBoard.ts:85-98 | the storage becomes `CopiedLegacyValues` |
| LegacyMigration.CopyLegacySnapshots | src/composables/usePedalBoard.ts:100-112 | the storage becomes `CopiedLegacySnapshots` |
| LegacyMigration.LegacyChannel | src/composables/usePedalBoard.ts:69-72 | the stored legacy channel when `Number` of it is valid; otherwise the profile default, sanitised to 1 when missing or invalid |
| LegacyMigration.Migrate | src/composables/usePedalBoard.ts:66-81 | one instance per known candidate, and one id consumed per instance |
| LegacyMigration.KnownOnly | src/composables/usePedalBoard.ts:64-67 | keeps exactly the candidates that are in the catalogue |
| LegacyMigration.KnownOnlyHasNoDuplicates | src/composables/usePedalBoard.ts:64-67 | distinct candidates stay distinct |
| LegacyMigration.MigrationShape | src/composables/usePedalBoard.ts:66-81 | the i-th instance has the i-th fresh id, the i-th known device in scan order, and the current time |
| LegacyMigration.MigrationChannels | src/composables/usePedalBoard.ts:69-72 | each instance's channel is `LegacyChannel` of its device in the original storage |
| LegacyMigration.MigrationFrame | src/composables/usePedalBoard.ts:73-74 | migration writes no key except the new instances' values and snapshots keys |
| LegacyMigration.LegacyKeysUntouched | src/composables/usePedalBoard.ts:73-74 | the legacy values and snapshots keys of a device are never among the keys migration writes, so every copy reads the original legacy item |
| LegacyMigration.MigrationCopies | src/composables/usePedalBoard.ts:73-74 | each new instance's keys hold what copying from the original storage writes |
| LegacyMigration.MigrationStepBoard | src/composables/usePedalBoard.ts:66-81 | one turn of the loop appends one instance and consumes one id for a known device, and nothing for an unknown one |
| LegacyMigration.MigrateCandidate | src/composables/usePedalBoard.ts:67-80 | one turn of the loop changes the storage, the ids and the board exactly as `MigrationStep` |
| LegacyMigration.MigrateCandidates | src/composables/usePedalBoard.ts:66-81 | the loop over the candidates leaves the storage, the ids and the board of `Migrate` |
| LegacyMigration.MigrateLegacyBoard | src/composables/usePedalBoard.ts:59-83 | the loop computes `Migrate` over the scanned candidates, and returns null when no instance results |
| ControlValues.LoadedValues | src/composables/useControlValues.ts:10-21 | empty for an empty device, a missing or empty item, or a null payload; otherwise the stored entries |
| ControlValues.PersistedValuesLoad | src/composables/useControlValues.ts:10-33 | a persisted map is loaded back exactly for the same device |
| ControlValues.SetValueThenLoad | src/composables/useControlValues.ts:10-38 | round trip: after `setValue(id, v)` on device d, the next `load(d)` has v at id |
| ControlValues.SelectedKeyIsNoValuesKey | src/composables/useControlValues.ts:40-43 | writing "pedal-selected" never touches a device's values key |
| ControlValues.ValuesStore.constructor | src/composables/useControlValues.ts:40-43 | the immediate watcher saves the device and loads its values |
| ControlValues.ValuesStore.Reset | src/composables/useControlValues.ts:6-8 | the delete loop empties the map |
| ControlValues.ValuesStore.Load | src/composables/useControlValues.ts:10-21 | the map is emptied, then filled by the insertion loop with exactly `LoadedValues` |
| ControlValues.ValuesStore.Persist | src/composables/useControlValues.ts:23-33 | nothing is written for an empty device; otherwise a copy of the whole map is written under "pedal-values:" + device |
| ControlValues.ValuesStore.SetValue | src/composables/useControlValues.ts:35-38 | only the key id changes, then the whole map is persisted |
| ControlValues.ValuesStore.SelectDevice | src/composables/useControlValues.ts:40-43 | "pedal-selected" := device, then the map is replaced (not merged) by the new device's values |
| Snapshots.LoadedSnapshots | src/composables/useSnapshots.ts:24-40 | empty for an empty device, a missing or empty item, a parse error or a non-array; otherwise the stored array |
| Snapshots.PersistedSnapshotsLoad | src/composables/useSnapshots.ts:24-50 | a persisted list is loaded back exactly for the same device |
| Snapshots.WithoutSnapshot | src/composables/useSnapshots.ts:66 | keeps exactly the snapshots whose id differs, each as many times as it occurs, and is never longer |
| Snapshots.WithoutSnapshotKeepsOrder | src/composables/useSnapshots.ts:66 | the rest stay in order (a subsequence) |
| Snapshots.WithoutSnapshotAppend | src/composables/useSnapshots.ts:66 | filtering distributes over concatenation |
| Snapshots.WithoutAbsentSnapshot | src/composables/useSnapshots.ts:66 | removing an id no snapshot has changes nothing |
| Snapshots.CreateThenRemove | src/composables/useSnapshots.ts:52-68 | removing a just-created snapshot by its fresh id gives back the earlier list |
| Snapshots.SnapshotStore.constructor | src/composables/useSnapshots.ts:70 | the immediate watcher loads the initial device's list |
| Snapshots.SnapshotStore.Load | src/composables/useSnapshots.ts:24-40 | the list becomes `LoadedSnapshots` |
| Snapshots.SnapshotStore.Persist | src/composables/useSnapshots.ts:42-50 | nothing is written for an empty device; otherwise the list is written under the device's key |
| Snapshots.SnapshotStore.CreateSnapshot | src/composables/useSnapshots.ts:52-63 | a no-op for an empty device; otherwise exactly one snapshot is appended after the earlier ones, carrying a fresh id, the name (the locale time when the name is empty), a copy of the values and the ISO time, and the list is persisted |
| Snapshots.SnapshotStore.RemoveSnapshot | src/composables/useSnapshots.ts:65-68 | every snapshot with the id is removed, the rest stay in order, and the list is persisted; a null element makes the filter throw before anything changes |
| Snapshots.SnapshotStore.SelectDevice | src/composables/useSnapshots.ts:70 | a device change reloads the list |
| PedalChannel.ChosenChannel | src/composables/usePedalChannel.ts:13-24 | an empty device leaves the channel untouched; the result is the current channel or a valid one |
| PedalChannel.StoredChannelWins | src/composables/usePedalChannel.ts:15-19 | a valid stored channel wins, whatever the profile default |
| PedalChannel.DefaultOrUnchanged | src/composables/usePedalChannel.ts:20-23 | otherwise a valid default is applied, and with neither the channel is unchanged |
| PedalChannel.MissingKeyFallsBack | src/composables/usePedalChannel.ts:15-23 | a missing key reads as `Number(null) = 0`, which is invalid, so only the default can change the channel |
| PedalChannel.PersistedChannelIsChosen | src/composables/usePedalChannel.ts:15-30 | round trip: a channel persisted as its decimal string is read back as that channel on the next selection |
| PedalChannel.ChannelSync.constructor | src/composables/usePedalChannel.ts:7-12 | the watchers are bound to the store and storage |
| PedalChannel.ChannelSync.OnSelection | src/composables/usePedalChannel.ts:13-24 | the store's channel becomes `ChosenChannel` through `setChannel`, and the rest of the store is unchanged |
| PedalChannel.ChannelSync.OnChannelChange | src/composables/usePedalChannel.ts:26-34 | nothing is written for an empty device; otherwise `String(channel)` is written under "pedal-channel:" + device |
| MidiStore.Gateway.constructor | src/infrastructure/webmidi.gateway.ts:13-15 | a gateway that has no access yet and has sent nothing, over the browser's fixed answers (API present, refusal, failing outputs) and output list |
| MidiStore.Gateway.EnsureAccess | src/infrastructure/webmidi.gateway.ts:17-27 | rejects with the "not supported" error iff the browser has no `requestMIDIAccess`; otherwise rejects with the browser's message iff it refuses access; succeeds otherwise |
| MidiStore.Gateway.GetOutputs | src/infrastructure/webmidi.gateway.ts:29-36 | rejects exactly as `ensureAccess` does, and otherwise lists the outputs |
| MidiStore.Gateway.SendRaw | src/infrastructure/webmidi.gateway.ts:42-44 | an output whose `send` throws sends nothing and gives its error; any other output receives exactly the frame |
| MidiStore.Gateway.SendProgramChange | src/infrastructure/webmidi.gateway.ts:46-49 | the builder's error and nothing sent, or else `sendRaw` of the built frame; the same method of `src/adapters/infrastructure/midi/web-midi.gateway.ts` (lines 37-40) is identical |
| MidiStore.Gateway.SendControlChange | src/infrastructure/webmidi.gateway.ts:51-54 | the same for a Control Change; lines 42-45 of the adapters gateway are identical |
| MidiStore.FindSelected | src/ui/composables/useMidiStore.ts:14-16 | an output is selected iff the selected id is listed |
| MidiStore.SelectionAfterRefresh | src/ui/composables/useMidiStore.ts:22-24 | a non-empty selected id that is still listed is kept; otherwise the first output's id, or null for an empty list |
| MidiStore.RefreshSelectsListedOutput | src/ui/composables/useMidiStore.ts:22-24 | after a refresh the selection is null exactly when the list is empty, and otherwise a listed id, so an output is ready iff there is one |
| MidiStore.RefreshIsIdempotent | src/ui/composables/useMidiStore.ts:19-25 | refreshing twice over the same list selects what refreshing once selects |
| MidiStore.Store.constructor | src/ui/composables/useMidiStore.ts:9-12 | no outputs, no selection, channel 1, no error; `midi.store.ts` lines 5-8 do the same |
| MidiStore.Store.SelectedOutput | src/ui/composables/useMidiStore.ts:14-17 | a selected output is listed and carries the selected id |
| MidiStore.Store.RefreshOutputs | src/ui/composables/useMidiStore.ts:19-25 | the outputs become the gateway's list and the selection `SelectionAfterRefresh`; a listing rejected for want of access returns that error and changes nothing; `midi.store.ts` lines 26-32 do the same |
| MidiStore.Store.Init | src/ui/composables/useMidiStore.ts:27-36 | with access granted, the outputs are refreshed; otherwise the access error (unsupported API or a refused request) is recorded in `errorMessage` and not rethrown; `midi.store.ts` lines 14-24 do the same |
| MidiStore.Store.SetSelectedOutput | src/ui/composables/useMidiStore.ts:38-40 | any id is stored unchecked; an unlisted id leaves no output ready; `midi.store.ts` lines 34-36 do the same |
| MidiStore.Store.SetChannel | src/ui/composables/useMidiStore.ts:42-48 | a valid channel is taken; an invalid value is ignored; `midi.store.ts` lines 38-44 do the same |
| MidiStore.Store.SendProgramChange | src/ui/composables/useMidiStore.ts:50-64 | with no selected output: "No MIDI output selected." is returned and recorded, and nothing is sent; otherwise the built frame on the current channel is sent, or the encoding error, or the error thrown by the output's `send`, is returned and recorded; success leaves `errorMessage` untouched; `midi.store.ts` lines 46-61 do the same |
| MidiStore.Store.SendControlChange | src/ui/composables/useMidiStore.ts:66-80 | the same, for a Control Change; `midi.store.ts` lines 63-78 do the same |
| I18n.FirstPrefixOf | src/app/i18n.ts:26 | the first supported locale that begins the text, or none iff no locale does |
| I18n.DetectLocale | src/app/i18n.ts:17-33 | always a supported locale; an exception while reading gives "en"; a supported stored choice wins; with an unsupported stored choice and no browser language (undefined or empty) the result is "en" |
| I18n.ExactLanguageWins | src/app/i18n.ts:21-25 | otherwise a navigator language that lower-cases to a supported locale selects it |
| I18n.PrefixOrFallback | src/app/i18n.ts:26-32 | otherwise the first locale that prefixes the lower-cased language ("en" before "fr"); with none, "en" |
| I18n.CanadianFrench | src/app/i18n.ts:21-27 | worked case: "fr-CA" with nothing stored gives "fr" |
| I18n.Localizer.constructor | src/app/i18n.ts:35-40 | the initial locale is the detected one, and it is supported |
| I18n.Localizer.SetLocale | src/app/i18n.ts:42-55 | an unsupported value changes nothing and writes nothing; a supported one is applied and stored; the locale stays supported |
| I18n.StoredLocaleIsDetected | src/app/i18n.ts:19-51 | round trip: a locale `setLocale` stored is what the next start detects |

## Left out

- NaN and the infinities are not modelled. `Number(text)` covers the empty text (0) and decimal digits with an optional leading minus sign; any other text is treated as NaN, so text such as " 5", "5.0" or "0x5" is not read as the number JavaScript would produce.
- Storage exceptions (quota or security errors inside the `try` blocks) are not modelled, and neither is the branch where `localStorage` does not exist (`hasStorage()` false). Storage always works in the model. `I18n.DetectLocale` alone keeps the exception path as an input.
- An item written with `JSON.stringify` is modelled as a document, not as text. Where the code reads such an item as plain text, only a stored JSON number is given a value (`Number` of its text is the number); any other document reads as no text.
- JSON key order and the order of `Object.entries` are not modelled; objects are maps.
- Payload shapes stored by code that is not part of this model are not checked beyond what this code reads. This covers `StoredControlValues` and `StoredSnapshotsPayload`, imported at `src/composables/usePedalBoard.ts:5-6`, which are not part of this model.
- The French-locale sort of the catalogue (`src/config/pedalConfig.ts:24`) and the `localeCompare` sort of outputs in the gateways: the catalogue and the output list are given already in order.
- Asynchrony and Vue reactivity: watchers are explicit method calls. After `OnSelection` changes the channel, the caller runs `OnChannelChange`, which is what Vue's second watcher does.
- The gateway state-change listeners, and the `onstatechange` refresh they trigger, are not modelled. `MidiStore.Store.Init` performs the one refresh that `init` awaits.
- `createI18n` and the reactive `target.value` assignment are modelled only as the `locale` field.
- Error messages are the datatype `Midi.MidiError`; rendering them as text is not modelled.
- MidiStore.Gateway.EnsureAccess: the browser's answer to `requestMIDIAccess` is fixed for the gateway's lifetime, so the caching of a granted `MIDIAccess` (`src/infrastructure/webmidi.gateway.ts:18`) has no visible effect, and a permission granted or withdrawn between two requests is not modelled. The same holds for `MidiStore.Store.Init` and `MidiStore.Store.RefreshOutputs`, which reach it through `getOutputs`.
- MidiStore.Gateway.SendRaw: whether `output.send` throws is fixed per output; a port that fails only some of the time, and `send`'s optional timestamp, are not modelled. `MidiStore.Store.SendProgramChange` and `MidiStore.Store.SendControlChange` inherit this.
- JsText.ToLower: ASCII only. JavaScript also lower-cases non-ASCII letters, and can change the length: U+0130 becomes "i" followed by U+0307. `I18n.DetectLocale` only asks whether the lowered language equals "en" or "fr" or starts with one of them. In the Unicode case mappings no non-ASCII character lower-cases to a text beginning with e, n, f or r, so the detected locale is the same as with full lower-casing.
- A rejected `requestMIDIAccess` in `src/core/midi/midi.ts:4-8` is not modelled: `CoreMidi.MidiService.Init` takes the first output (or none) as a parameter.
- CoreMidi.MidiService.SendCC: whether the output's `send` throws is fixed per port (`failing`); a port that fails only some of the time is not modelled.
- `src/store/useMidi.ts:5` reads `midiStore.isOutputReady`, which `src/store/midi.store.ts` does not export. The model's single store has `IsOutputReady`.
- `generateId()` (UUIDs or time-and-random text) is replaced by counter tokens `IdToken(n)`. These are pairwise distinct, but a board restored from storage may already hold an id of that form (a stored "id-0", say), and the next generated id can then repeat it. The source's random ids make such a collision practically impossible; the model does not promise that generated ids differ from restored ones.
- LegacyMigration.MigrationCopies: proved for catalogues whose device names do not start with "v2:". For such a device, "pedal-values:" + device would itself be an instance key.
- PedalBoard.Board.RemoveInstance: the board stays non-empty only when ids are distinct. With a stored board of two instances sharing the removed id, the filter leaves an empty board. Ids the board generates are pairwise distinct, but with counter ids one of them can repeat a restored id (see the `generateId()` line).
- PedalBoard.Board.Load: when a null item makes `load` throw, the ids generated for the items before it are still consumed. The model counts them (`IdsUsedByLoad`), but they are discarded with the failed result.
- Control, zone and profile metadata beyond what is read here (labels, notes, schema checks in `isPedalConfig`) are not modelled.
