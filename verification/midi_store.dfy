/**
 * The output-selection and send state machine of `createMidiStore(gateway)`
 * (src/ui/composables/useMidiStore.ts) and of its module-level twin `midiStore`
 * (src/store/midi.store.ts), over a Web MIDI gateway reduced to what the store observes:
 * whether MIDI access is granted, the output ids it lists, which outputs fail to send,
 * and the frames sent so far.
 */
module MidiStore {
  import opened Wrappers
  import opened Midi
  import opened Commands

  /** One frame handed to `output.send`. */
  datatype Sent = Sent(output: string, bytes: seq<Byte>)

  const UNSUPPORTED_MESSAGE := "Web MIDI not supported by this browser. Use HTTPS/localhost."

  /**
   * The Web MIDI gateway: outputs are known by id, in the order the gateway lists them.
   * What the browser answers is fixed when the gateway is made: whether
   * `requestMIDIAccess` exists, the message it rejects with when it refuses access (a
   * denied permission, say), and the outputs whose `send` throws, with the message.
   */
  class Gateway {
    const available: bool
    const refusal: Option<string>
    const failing: map<string, string>
    var ports: seq<string>
    var sent: seq<Sent>

    constructor (available: bool, refusal: Option<string>, failing: map<string, string>, ports: seq<string>)
      ensures this.available == available && this.refusal == refusal && this.failing == failing
      ensures this.ports == ports && sent == []
    {
      this.available := available;
      this.refusal := refusal;
      this.failing := failing;
      this.ports := ports;
      sent := [];
    }

    /** The error `ensureAccess()` rejects with, if any. */
    function AccessError(): Option<MidiError> {
      if !available then Some(Transport(UNSUPPORTED_MESSAGE))
      else if refusal.Some? then Some(Transport(refusal.value))
      else None
    }

    /**
     * `ensureAccess()`: rejects with the "not supported" error when the browser has no
     * `requestMIDIAccess`, and with the browser's message when the request is refused.
     */
    method EnsureAccess() returns (err: Option<MidiError>)
      ensures err.None? <==> available && refusal.None?
      ensures !available ==> err == Some(Transport(UNSUPPORTED_MESSAGE))
      ensures available && refusal.Some? ==> err == Some(Transport(refusal.value))
      ensures err == AccessError()
    {
      if !available {
        return Some(Transport(UNSUPPORTED_MESSAGE));
      }
      if refusal.Some? {
        return Some(Transport(refusal.value));
      }
      return None;
    }

    /** `getOutputs()`: the outputs after `ensureAccess()`, which it awaits first. */
    method GetOutputs() returns (r: Result<seq<string>, MidiError>)
      ensures AccessError().None? ==> r == Success(ports)
      ensures AccessError().Some? ==> r == Failure(AccessError().value)
    {
      var err := EnsureAccess();
      if err.Some? {
        return Failure(err.value);
      }
      return Success(ports);
    }

    /** `sendRaw(output, bytes)`: `output.send` either throws or sends the frame. */
    method SendRaw(output: string, bytes: seq<Byte>) returns (err: Option<MidiError>)
      modifies this
      ensures ports == old(ports)
      ensures output in failing ==> err == Some(Transport(failing[output])) && sent == old(sent)
      ensures output !in failing ==> err == None && sent == old(sent) + [Sent(output, bytes)]
    {
      if output in failing {
        return Some(Transport(failing[output]));
      }
      sent := sent + [Sent(output, bytes)];
      return None;
    }

    /** `sendProgramChange(output, pc)`: builds the frame (which may throw), then `sendRaw`. */
    method SendProgramChange(output: string, pc: ProgramChange) returns (err: Option<MidiError>)
      modifies this
      ensures ports == old(ports)
      ensures var frame := BuildProgramChangeBytes(pc);
        && (frame.Failure? ==> err == Some(frame.error) && sent == old(sent))
        && (frame.Success? && output in failing ==> err == Some(Transport(failing[output])) && sent == old(sent))
        && (frame.Success? && output !in failing ==> err == None && sent == old(sent) + [Sent(output, frame.value)])
    {
      var bytes := BuildProgramChangeBytes(pc);
      if bytes.Failure? {
        return Some(bytes.error);
      }
      err := SendRaw(output, bytes.value);
    }

    /** `sendControlChange(output, cc)`: builds the frame (which may throw), then `sendRaw`. */
    method SendControlChange(output: string, cc: ControlChange) returns (err: Option<MidiError>)
      modifies this
      ensures ports == old(ports)
      ensures var frame := BuildControlChangeBytes(cc);
        && (frame.Failure? ==> err == Some(frame.error) && sent == old(sent))
        && (frame.Success? && output in failing ==> err == Some(Transport(failing[output])) && sent == old(sent))
        && (frame.Success? && output !in failing ==> err == None && sent == old(sent) + [Sent(output, frame.value)])
    {
      var bytes := BuildControlChangeBytes(cc);
      if bytes.Failure? {
        return Some(bytes.error);
      }
      err := SendRaw(output, bytes.value);
    }
  }

  /**
   * `outputs.find((o) => o.id === selectedOutputId) ?? null`: the selected output when it
   * is listed; a missing selection matches no output.
   */
  function FindSelected(outputs: seq<string>, selectedOutputId: Option<string>): (r: Option<string>)
    ensures r.Some? <==> selectedOutputId.Some? && selectedOutputId.value in outputs
    ensures r.Some? ==> r == selectedOutputId
  {
    if selectedOutputId.Some? && selectedOutputId.value in outputs then selectedOutputId else None
  }

  /**
   * The selection `refreshOutputs` leaves: a listed, non-empty selection is kept;
   * otherwise the first output's id, or null for an empty list.
   */
  function SelectionAfterRefresh(selectedOutputId: Option<string>, outputs: seq<string>): (r: Option<string>)
    ensures selectedOutputId.Some? && selectedOutputId.value != "" && selectedOutputId.value in outputs ==> r == selectedOutputId
    ensures !(selectedOutputId.Some? && selectedOutputId.value != "" && selectedOutputId.value in outputs) ==>
      r == (if outputs == [] then None else Some(outputs[0]))
  {
    if selectedOutputId.None? || selectedOutputId.value == "" || selectedOutputId.value !in outputs then
      (if outputs == [] then None else Some(outputs[0]))
    else selectedOutputId
  }

  /** After a refresh the selection is null exactly for an empty list, and otherwise a listed id. */
  lemma RefreshSelectsListedOutput(selectedOutputId: Option<string>, outputs: seq<string>)
    ensures SelectionAfterRefresh(selectedOutputId, outputs).None? <==> outputs == []
    ensures SelectionAfterRefresh(selectedOutputId, outputs).Some? ==> SelectionAfterRefresh(selectedOutputId, outputs).value in outputs
    ensures FindSelected(outputs, SelectionAfterRefresh(selectedOutputId, outputs)).Some? <==> outputs != []
  {
  }

  /** Refreshing twice over the same list selects the same output as refreshing once. */
  lemma RefreshIsIdempotent(selectedOutputId: Option<string>, outputs: seq<string>)
    ensures var once := SelectionAfterRefresh(selectedOutputId, outputs);
      SelectionAfterRefresh(once, outputs) == once
  {
  }

  /** The MIDI store: its output list, selected id, channel and last error. */
  class Store {
    var outputs: seq<string>
    var selectedOutputId: Option<string>
    var channel: MidiChannel
    var errorMessage: Option<MidiError>
    const gateway: Gateway

    /** A new store has no outputs, no selection, channel 1 and no error. */
    constructor (gateway: Gateway)
      ensures this.gateway == gateway
      ensures outputs == [] && selectedOutputId == None && channel == 1 && errorMessage == None
    {
      this.gateway := gateway;
      outputs := [];
      selectedOutputId := None;
      channel := 1;
      errorMessage := None;
    }

    /** `selectedOutput` */
    function SelectedOutput(): (r: Option<string>)
      reads this
      ensures r.Some? ==> r.value in outputs && selectedOutputId == r
    {
      FindSelected(outputs, selectedOutputId)
    }

    /** `isOutputReady` */
    predicate IsOutputReady()
      reads this
    {
      SelectedOutput().Some?
    }

    /** `refreshOutputs()`: a rejected listing propagates and changes nothing. */
    method RefreshOutputs() returns (err: Option<MidiError>)
      modifies this
      ensures channel == old(channel) && errorMessage == old(errorMessage)
      ensures err == gateway.AccessError()
      ensures err.Some? ==> outputs == old(outputs) && selectedOutputId == old(selectedOutputId)
      ensures err.None? ==> outputs == gateway.ports && selectedOutputId == SelectionAfterRefresh(old(selectedOutputId), gateway.ports)
    {
      var list := gateway.GetOutputs();
      if list.Failure? {
        return Some(list.error);
      }
      outputs := list.value;
      var selected := selectedOutputId;
      if selected.None? || selected.value == "" || selected.value !in outputs {
        selectedOutputId := if |outputs| > 0 then Some(outputs[0]) else None;
      }
      return None;
    }

    /**
     * `init()`: access, then a refresh. A failure is recorded in `errorMessage` and not
     * rethrown. (Registering the state-change listener, which refreshes again later, is
     * not modelled.)
     */
    method Init()
      modifies this
      ensures channel == old(channel)
      ensures gateway.AccessError().None? ==>
        && errorMessage == old(errorMessage)
        && outputs == gateway.ports
        && selectedOutputId == SelectionAfterRefresh(old(selectedOutputId), gateway.ports)
      ensures gateway.AccessError().Some? ==>
        && errorMessage == gateway.AccessError()
        && outputs == old(outputs) && selectedOutputId == old(selectedOutputId)
    {
      var err := gateway.EnsureAccess();
      if err.None? {
        err := RefreshOutputs();
      }
      if err.Some? {
        errorMessage := err;
      }
    }

    /** `setSelectedOutput(id)`: any id is stored, listed or not. */
    method SetSelectedOutput(id: Option<string>)
      modifies this
      ensures selectedOutputId == id
      ensures outputs == old(outputs) && channel == old(channel) && errorMessage == old(errorMessage)
      ensures id.Some? && id.value !in outputs ==> !IsOutputReady()
    {
      selectedOutputId := id;
    }

    /** `setChannel(value)`: a valid channel is taken as it is; anything else is ignored. */
    method SetChannel(value: real)
      modifies this
      ensures IsMidiChannel(value) ==> channel as real == value
      ensures !IsMidiChannel(value) ==> channel == old(channel)
      ensures outputs == old(outputs) && selectedOutputId == old(selectedOutputId) && errorMessage == old(errorMessage)
    {
      var r := AsMidiChannel(value);
      if r.Success? {
        channel := r.value;
      }
    }

    /**
     * `sendProgramChange(program)` on the current channel: with no selected output, or when
     * the frame cannot be built, the error is returned and recorded; a sent frame returns
     * no error and leaves `errorMessage` as it was.
     */
    method SendProgramChange(program: real) returns (err: Option<MidiError>)
      modifies this, gateway
      ensures outputs == old(outputs) && selectedOutputId == old(selectedOutputId) && channel == old(channel)
      ensures gateway.ports == old(gateway.ports)
      ensures err.Some? ==> errorMessage == err && gateway.sent == old(gateway.sent)
      ensures err.None? ==> errorMessage == old(errorMessage)
      ensures old(SelectedOutput()).None? ==> err == Some(NoOutputSelected)
      ensures old(SelectedOutput()).Some? ==>
        var output := old(SelectedOutput()).value;
        var frame := BuildProgramChangeBytes(ProgramChange(channel, program));
        && (frame.Failure? ==> err == Some(frame.error))
        && (frame.Success? && output in gateway.failing ==> err == Some(Transport(gateway.failing[output])))
        && (frame.Success? && output !in gateway.failing ==> err == None && gateway.sent == old(gateway.sent) + [Sent(output, frame.value)])
    {
      var output := SelectedOutput();
      if output.None? {
        err := Some(NoOutputSelected);
        errorMessage := err;
        return;
      }
      err := gateway.SendProgramChange(output.value, ProgramChange(channel, program));
      if err.Some? {
        errorMessage := err;
      }
    }

    /** `sendControlChange(controller, value)` on the current channel, with the same error handling. */
    method SendControlChange(controller: real, value: real) returns (err: Option<MidiError>)
      modifies this, gateway
      ensures outputs == old(outputs) && selectedOutputId == old(selectedOutputId) && channel == old(channel)
      ensures gateway.ports == old(gateway.ports)
      ensures err.Some? ==> errorMessage == err && gateway.sent == old(gateway.sent)
      ensures err.None? ==> errorMessage == old(errorMessage)
      ensures old(SelectedOutput()).None? ==> err == Some(NoOutputSelected)
      ensures old(SelectedOutput()).Some? ==>
        var output := old(SelectedOutput()).value;
        var frame := BuildControlChangeBytes(ControlChange(channel, controller, value));
        && (frame.Failure? ==> err == Some(frame.error))
        && (frame.Success? && output in gateway.failing ==> err == Some(Transport(gateway.failing[output])))
        && (frame.Success? && output !in gateway.failing ==> err == None && gateway.sent == old(gateway.sent) + [Sent(output, frame.value)])
    {
      var output := SelectedOutput();
      if output.None? {
        err := Some(NoOutputSelected);
        errorMessage := err;
        return;
      }
      err := gateway.SendControlChange(output.value, ControlChange(channel, controller, value));
      if err.Some? {
        errorMessage := err;
      }
    }
  }
}
