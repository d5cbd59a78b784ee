/** MIDI primitives and their validation (src/domain/midi.ts; also what core/entities/midi provides). */
module Midi {
  import opened Wrappers

  /** `Number.isInteger(x)` for a finite number x. */
  predicate IsInteger(x: real) {
    x.Floor as real == x
  }

  /** The channels 1..16 (the type's literal union `1 | 2 | ... | 16`). */
  type MidiChannel = c: int | 1 <= c <= 16 witness 1

  /** A data byte of a MIDI message. */
  type SevenBit = v: int | 0 <= v <= 127

  datatype ProgramChange = ProgramChange(channel: MidiChannel, program: real)

  datatype ControlChange = ControlChange(channel: MidiChannel, controller: real, value: real)

  /**
   * The errors the MIDI layer reports. Each carries what its message interpolates (the label as `name`):
   * `Invalid MIDI channel: ${n}. Expected 1-16.`, `${label} out of range (0-127): ${value}`,
   * 'No MIDI output selected.', and the message of an error the Web MIDI transport throws.
   */
  datatype MidiError =
    | InvalidChannel(value: real)
    | OutOfRange(name: string, value: real)
    | NoOutputSelected
    | Transport(message: string)

  /** `isMidiChannel(n)` */
  predicate IsMidiChannel(n: real) {
    IsInteger(n) && 1.0 <= n <= 16.0
  }

  predicate IsSevenBitValue(v: real) {
    IsInteger(v) && 0.0 <= v <= 127.0
  }

  /** The channel predicate accepts exactly the sixteen literals of the channel type. */
  lemma MidiChannelLiterals(n: real)
    ensures IsMidiChannel(n) <==> n in {1.0, 2.0, 3.0, 4.0, 5.0, 6.0, 7.0, 8.0,
                                        9.0, 10.0, 11.0, 12.0, 13.0, 14.0, 15.0, 16.0}
  {
    if IsMidiChannel(n) {
      var k := n.Floor;
      assert 1 <= k <= 16;
      assert n == k as real;
    }
  }

  /** `asMidiChannel(n)`: the same number as a channel, or the error it throws; it never clamps. */
  function AsMidiChannel(n: real): (r: Result<MidiChannel, MidiError>)
    ensures r.Success? <==> IsMidiChannel(n)
    ensures r.Success? ==> r.value as real == n
    ensures r.Failure? ==> r.error == InvalidChannel(n)
  {
    if IsMidiChannel(n) then Success(n.Floor) else Failure(InvalidChannel(n))
  }

  /** `assertSevenBit(value, label)`: the same number, or an error carrying the given label. */
  function AssertSevenBit(value: real, name: string): (r: Result<SevenBit, MidiError>)
    ensures r.Success? <==> IsInteger(value) && 0.0 <= value <= 127.0
    ensures r.Success? ==> r.value as real == value
    ensures r.Failure? ==> r.error == OutOfRange(name, value)
  {
    if !IsInteger(value) || value < 0.0 || value > 127.0 then Failure(OutOfRange(name, value))
    else Success(value.Floor)
  }
}
