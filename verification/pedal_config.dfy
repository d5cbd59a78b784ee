/**
 * Device profiles (src/config/types.ts) and the catalogue lookups the board uses
 * (`listPedals`, `getPedalByDevice` in src/config/pedalConfig.ts). Loading the JSON
 * profiles and sorting them by a French-locale comparison are not modelled: the catalogue
 * is given as a sequence already in display order.
 */
module PedalConfig {
  import opened Wrappers

  datatype Zone = Zone(name: string, min: real, max: real)

  /** The control variants, each with its own encoding metadata. */
  datatype ControlKind =
    | Range(min: real, max: real)
    | Toggle(on: real, off: real)
    | Enum(valueMap: map<string, real>)
    | ZoneEnum(zones: seq<Zone>)
    | Momentary(pulse: real)

  /** A control; `hidden` is the optional flag (`None` when absent). */
  datatype Control = Control(id: string, caption: string, cc: real, hidden: Option<bool>, kind: ControlKind)

  /** A device profile; `midiChannel` is `midi.channel` when that is a number. */
  datatype Profile = Profile(device: string, schemaVersion: real, midiChannel: Option<real>, controls: seq<Control>)

  /** `listPedals().map(p => p.value)`: the device names in catalogue order. */
  function ListPedals(catalog: seq<Profile>): (names: seq<string>)
    ensures |names| == |catalog|
    ensures forall i :: 0 <= i < |catalog| ==> names[i] == catalog[i].device
  {
    if catalog == [] then [] else [catalog[0].device] + ListPedals(catalog[1..])
  }

  /** `getPedalByDevice(device)`: the first profile with that device name. */
  function GetPedalByDevice(catalog: seq<Profile>, device: string): (r: Option<Profile>)
    ensures r.Some? <==> device in ListPedals(catalog)
    ensures r.Some? ==> r.value in catalog && r.value.device == device
  {
    if catalog == [] then None
    else if catalog[0].device == device then Some(catalog[0])
    else GetPedalByDevice(catalog[1..], device)
  }

  /** When several profiles share a device name, the first one is found. */
  lemma {:induction false} GetPedalByDeviceFindsFirst(catalog: seq<Profile>, i: nat)
    requires i < |catalog|
    requires forall j :: 0 <= j < i ==> catalog[j].device != catalog[i].device
    ensures GetPedalByDevice(catalog, catalog[i].device) == Some(catalog[i])
  {
    if i > 0 {
      GetPedalByDeviceFindsFirst(catalog[1..], i - 1);
    }
  }

  /** `listPedals()[0]?.value ?? null`: the default device, the head of the catalogue. */
  function DefaultDevice(catalog: seq<Profile>): (r: Option<string>)
    ensures r.Some? <==> |catalog| > 0
    ensures r.Some? ==> r.value == ListPedals(catalog)[0]
  {
    if catalog == [] then None else Some(catalog[0].device)
  }

  /** `getPedalByDevice(device)?.midi?.channel`, when it is a number. */
  function ProfileChannel(catalog: seq<Profile>, device: string): Option<real> {
    var p := GetPedalByDevice(catalog, device);
    if p.Some? then p.value.midiChannel else None
  }
}
