/**
 * `usePedalChannelSync` (src/composables/usePedalChannel.ts): the two watchers that keep
 * the MIDI store's channel and the per-device key "pedal-channel:<device>" in step.
 * `setChannel` and `channel` are the MIDI store's.
 */
module PedalChannel {
  import opened Wrappers
  import opened JsText
  import opened Json
  import opened Host
  import opened Midi
  import opened StorageKeys
  import opened PedalConfig
  import opened MidiStore

  /** `typeof cfg?.midi?.channel === 'number' ? cfg.midi.channel : undefined` */
  function DefaultChannelOf(cfg: Option<Profile>): Option<real> {
    if cfg.Some? then cfg.value.midiChannel else None
  }

  /**
   * The channel the first watcher leaves: unchanged for an empty device; else the stored
   * channel when `Number` of it is valid; else the profile's default when valid; else
   * unchanged.
   */
  function ChosenChannel(items: map<string, Stored>, device: string, defaultChannel: Option<real>, current: MidiChannel): (r: MidiChannel)
    ensures device == "" ==> r == current
    ensures r == current || IsMidiChannel(r as real)
  {
    if device == "" then current
    else
      var stored := StoredToNumber(Lookup(items, LegacyChannelKey(device)));
      if stored.Some? && IsMidiChannel(stored.value) then stored.value.Floor
      else if defaultChannel.Some? && IsMidiChannel(defaultChannel.value) then defaultChannel.value.Floor
      else current
  }

  /** A valid stored channel wins, whatever the profile's default. */
  lemma StoredChannelWins(items: map<string, Stored>, device: string, defaultChannel: Option<real>, current: MidiChannel, n: real)
    requires device != ""
    requires StoredToNumber(Lookup(items, LegacyChannelKey(device))) == Some(n) && IsMidiChannel(n)
    ensures ChosenChannel(items, device, defaultChannel, current) as real == n
  {
  }

  /** Without a valid stored channel, a valid default is taken, and with neither nothing changes. */
  lemma DefaultOrUnchanged(items: map<string, Stored>, device: string, defaultChannel: Option<real>, current: MidiChannel)
    requires device != ""
    requires var stored := StoredToNumber(Lookup(items, LegacyChannelKey(device)));
      stored.None? || !IsMidiChannel(stored.value)
    ensures defaultChannel.Some? && IsMidiChannel(defaultChannel.value) ==>
      ChosenChannel(items, device, defaultChannel, current) as real == defaultChannel.value
    ensures !(defaultChannel.Some? && IsMidiChannel(defaultChannel.value)) ==>
      ChosenChannel(items, device, defaultChannel, current) == current
  {
  }

  /** A missing key reads as `Number(null)`, which is 0 and no channel, so the default decides. */
  lemma MissingKeyFallsBack(items: map<string, Stored>, device: string, defaultChannel: Option<real>, current: MidiChannel)
    requires device != "" && LegacyChannelKey(device) !in items
    ensures ChosenChannel(items, device, defaultChannel, current)
         == if defaultChannel.Some? && IsMidiChannel(defaultChannel.value) then defaultChannel.value.Floor else current
  {
  }

  /** Round trip: a channel persisted as its decimal text is chosen again for that device. */
  lemma PersistedChannelIsChosen(items: map<string, Stored>, device: string, c: MidiChannel, defaultChannel: Option<real>, current: MidiChannel)
    requires device != ""
    ensures ChosenChannel(items[LegacyChannelKey(device) := Raw(Decimal(c))], device, defaultChannel, current) == c
  {
    DecimalRoundTrip(c);
    assert StoredToNumber(Lookup(items[LegacyChannelKey(device) := Raw(Decimal(c))], LegacyChannelKey(device))) == Some(c as real);
    assert IsMidiChannel(c as real);
  }

  /** The two watchers, over the MIDI store whose channel they read and set. */
  class ChannelSync {
    const store: Store
    const storage: LocalStorage

    constructor (store: Store, storage: LocalStorage)
      ensures this.store == store && this.storage == storage
    {
      this.store := store;
      this.storage := storage;
    }

    /** The first watcher, on a change of device or profile (and once at start). */
    method OnSelection(device: string, cfg: Option<Profile>)
      modifies store
      ensures store.channel == ChosenChannel(storage.items, device, DefaultChannelOf(cfg), old(store.channel))
      ensures store.outputs == old(store.outputs) && store.selectedOutputId == old(store.selectedOutputId)
      ensures store.errorMessage == old(store.errorMessage)
    {
      if device == "" {
        return;
      }
      var raw := StoredToNumber(storage.GetItem(LegacyChannelKey(device)));
      if raw.Some? && IsMidiChannel(raw.value) {
        store.SetChannel(raw.value);
        return;
      }
      var defaultChannel := DefaultChannelOf(cfg);
      if defaultChannel.Some? && IsMidiChannel(defaultChannel.value) {
        store.SetChannel(defaultChannel.value);
      }
    }

    /** The second watcher, on a change of channel: `String(channel)` under the device's key. */
    method OnChannelChange(device: string)
      modifies storage
      ensures device == "" ==> storage.items == old(storage.items)
      ensures device != "" ==> storage.items == old(storage.items)[LegacyChannelKey(device) := Raw(Decimal(store.channel))]
    {
      if device == "" {
        return;
      }
      storage.SetItem(LegacyChannelKey(device), Raw(Decimal(store.channel)));
    }
  }
}
