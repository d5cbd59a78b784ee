/**
 * Program Change and Control Change frames (src/domain/commands.ts), checked against
 * the Channel Voice Messages of the MIDI 1.0 Detailed Specification ("Summary of MIDI
 * Messages"): a status byte whose high nibble names the message (0xB Control Change,
 * 0xC Program Change) and whose low nibble is the zero-based channel, followed by data
 * bytes below 0x80.
 */
module Commands {
  import opened Wrappers
  import opened Midi

  /** An element of a `Uint8Array`. */
  type Byte = b: int | 0 <= b < 256

  /** `buildProgramChangeBytes(pc)`; the channel is trusted as typed and not re-checked. */
  function BuildProgramChangeBytes(pc: ProgramChange): (r: Result<seq<Byte>, MidiError>)
    ensures r.Success? <==> IsSevenBitValue(pc.program)
    ensures r.Success? ==>
              && |r.value| == 2
              && r.value[0] / 16 == 0xC && r.value[0] % 16 == pc.channel - 1
              && r.value[1] < 0x80 && r.value[1] as real == pc.program
    ensures r.Failure? ==> r.error == OutOfRange("Program", pc.program)
  {
    var status := 0xC0 + (pc.channel - 1);
    match AssertSevenBit(pc.program, "Program")
    case Failure(e) => Failure(e)
    case Success(program) => Success([status, program])
  }

  /** `buildControlChangeBytes(cc)`: the controller is checked before the value. */
  function BuildControlChangeBytes(cc: ControlChange): (r: Result<seq<Byte>, MidiError>)
    ensures r.Success? <==> IsSevenBitValue(cc.controller) && IsSevenBitValue(cc.value)
    ensures r.Success? ==>
              && |r.value| == 3
              && r.value[0] / 16 == 0xB && r.value[0] % 16 == cc.channel - 1
              && r.value[1] < 0x80 && r.value[1] as real == cc.controller
              && r.value[2] < 0x80 && r.value[2] as real == cc.value
    ensures r.Failure? && !IsSevenBitValue(cc.controller) ==> r.error == OutOfRange("Controller", cc.controller)
    ensures r.Failure? && IsSevenBitValue(cc.controller) ==> r.error == OutOfRange("Value", cc.value)
  {
    var status := 0xB0 + (cc.channel - 1);
    match AssertSevenBit(cc.controller, "Controller")
    case Failure(e) => Failure(e)
    case Success(controller) =>
      match AssertSevenBit(cc.value, "Value")
      case Failure(e) => Failure(e)
      case Success(value) => Success([status, controller, value])
  }

  /** A channel voice message as a receiver reads it off the wire. */
  datatype ChannelMessage =
    | ProgramChangeMessage(channel: MidiChannel, program: SevenBit)
    | ControlChangeMessage(channel: MidiChannel, controller: SevenBit, value: SevenBit)

  /**
   * How a receiver decodes one complete Control Change or Program Change frame
   * (MIDI 1.0, "Summary of MIDI Messages"); anything else is not such a frame.
   */
  function DecodeChannelMessage(bytes: seq<Byte>): Option<ChannelMessage> {
    if |bytes| == 0 || bytes[0] < 0x80 then None
    else
      var kind, channel := bytes[0] / 16, bytes[0] % 16 + 1;
      if kind == 0xC && |bytes| == 2 && bytes[1] < 0x80 then
        Some(ProgramChangeMessage(channel, bytes[1]))
      else if kind == 0xB && |bytes| == 3 && bytes[1] < 0x80 && bytes[2] < 0x80 then
        Some(ControlChangeMessage(channel, bytes[1], bytes[2]))
      else None
  }

  /** A receiver reads a built Program Change back as the same channel and program. */
  lemma ProgramChangeRoundTrip(pc: ProgramChange)
    requires IsSevenBitValue(pc.program)
    ensures BuildProgramChangeBytes(pc).Success?
    ensures DecodeChannelMessage(BuildProgramChangeBytes(pc).value)
         == Some(ProgramChangeMessage(pc.channel, pc.program.Floor))
  {
    var bytes := BuildProgramChangeBytes(pc).value;
    assert bytes[0] == 0xC0 + (pc.channel - 1);
  }

  /** A receiver reads a built Control Change back as the same channel, controller and value. */
  lemma ControlChangeRoundTrip(cc: ControlChange)
    requires IsSevenBitValue(cc.controller) && IsSevenBitValue(cc.value)
    ensures BuildControlChangeBytes(cc).Success?
    ensures DecodeChannelMessage(BuildControlChangeBytes(cc).value)
         == Some(ControlChangeMessage(cc.channel, cc.controller.Floor, cc.value.Floor))
  {
    var bytes := BuildControlChangeBytes(cc).value;
    assert bytes[0] == 0xB0 + (cc.channel - 1);
  }

  /** Worked frames: CC 7 = 100 on channels 1 and 16, and program 5 on channel 10. */
  lemma WorkedFrames()
    ensures BuildControlChangeBytes(ControlChange(1, 7.0, 100.0)) == Success([0xB0, 7, 100])
    ensures BuildControlChangeBytes(ControlChange(16, 7.0, 100.0)) == Success([0xBF, 7, 100])
    ensures BuildProgramChangeBytes(ProgramChange(10, 5.0)) == Success([0xC9, 5])
  {
    assert (7.0).Floor == 7 && (100.0).Floor == 100 && (5.0).Floor == 5;
  }
}
