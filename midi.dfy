/**
  The MIDI hook: incoming Note On messages (status 90H-9FH with a non-zero
  velocity, section "Channel Voice Messages" of the MIDI 1.0 Detailed
  Specification) are decoded to notes and handed to the registered callback;
  outgoing notes are a Note On followed, 100 ms later, by a Note Off
  (80H-8FH) with velocity 0. The hook also keeps which input and output port
  is selected. Ports are named by their ids, the note callback by an id, and
  the delayed Note Off is delivered by the explicit method `NoteOffTimerFires`.
 */
module Midi {
  import opened Common
  import Harmony

  /** A value of a `Uint8Array`. */
  type Byte = x: int | 0 <= x < 256

  /** A decoded note: `{ midi, note, octave, cents }`. */
  datatype NoteInfo = NoteInfo(midi: int, note: string, octave: int, cents: int)

  const NoteOnStatus: nat := 0x90
  const NoteOffStatus: nat := 0x80
  const DefaultVelocity: int := 127
  const DefaultChannel: nat := 1
  const HarmonyVelocity: int := 100

  /** JavaScript's `|` on non-negative integers. */
  function BitOr(a: nat, b: nat): nat
    decreases a + b
  {
    if a == 0 then b
    else if b == 0 then a
    else 2 * BitOr(a / 2, b / 2) + (if a % 2 == 1 || b % 2 == 1 then 1 else 0)
  }

  function Pow2(p: nat): (r: nat)
    ensures r >= 1
  {
    if p == 0 then 1 else 2 * Pow2(p - 1)
  }

  /** OR-ing a number below 2^p into a multiple of 2^p adds it. */
  lemma {:induction false} BitOrAdds(m: nat, c: nat, p: nat)
    requires c < Pow2(p)
    ensures BitOr(m * Pow2(p), c) == m * Pow2(p) + c
  {
    if c != 0 && m != 0 {
      var h := m * Pow2(p - 1);
      assert m * Pow2(p) == 2 * h;
      BitOrAdds(m, c / 2, p - 1);
    }
  }

  /** `status | (channel - 1)`. */
  function StatusByte(status: nat, channel: nat): nat
    requires channel >= 1
  {
    BitOr(status, channel - 1)
  }

  /** For channels 1 to 16 the channel number sits in the low four bits. */
  lemma ChannelNibble(status: nat, channel: nat)
    requires status % 16 == 0 && 1 <= channel <= 16
    ensures StatusByte(status, channel) == status + channel - 1
    ensures StatusByte(status, channel) / 16 == status / 16 && StatusByte(status, channel) % 16 == channel - 1
  {
    assert Pow2(4) == 16;
    assert (status / 16) * 16 == status;
    BitOrAdds(status / 16, channel - 1, 4);
  }

  /** Above channel 16 the channel bits spill into the status: channel 17 sends a Note On on
      channel 1. */
  lemma Channel17AliasesChannel1()
    ensures StatusByte(NoteOnStatus, 17) == StatusByte(NoteOnStatus, 1) == 0x90
  {
  }

  /** `[0x90 | (channel - 1), note, velocity]`. */
  function NoteOnMessage(note: int, velocity: int, channel: nat): seq<int>
    requires channel >= 1
  {
    [StatusByte(NoteOnStatus, channel), note, velocity]
  }

  /** `[0x80 | (channel - 1), note, 0]`. */
  function NoteOffMessage(note: int, channel: nat): seq<int>
    requires channel >= 1
  {
    [StatusByte(NoteOffStatus, channel), note, 0]
  }

  /** `getNoteNameFromMIDI`. */
  function NoteName(midi: nat): string
  {
    Harmony.NoteNames[midi % 12]
  }

  /** The note a Note On for key `note` stands for. */
  function NoteFor(note: nat): NoteInfo
  {
    NoteInfo(note, NoteName(note), note / 12 - 1, 0)
  }

  /** `handleMIDIMessage`'s decision: a note exactly for a message of at least three bytes
      whose status is a Note On and whose velocity is positive; a missing byte reads as
      `undefined` and fails its comparison. */
  function Decode(data: seq<Byte>): (r: Option<NoteInfo>)
    ensures r.Some? <==> |data| >= 3 && 144 <= data[0] <= 159 && data[2] > 0
    ensures r.Some? ==> r.value.midi == data[1] && r.value.cents == 0
  {
    if |data| >= 3 && data[0] >= 144 && data[0] <= 159 && data[2] > 0 then Some(NoteFor(data[1]))
    else None
  }

  /** The decoded name and octave are the harmony engine's: they print as `midiToNote`
      prints the note, and `noteToMidi` gives the note back. */
  lemma DecodedNoteAgrees(note: nat)
    ensures NoteFor(note).note + IntToString(NoteFor(note).octave) == Harmony.MidiToNote(note)
    ensures Harmony.NoteToMidi(NoteFor(note).note, NoteFor(note).octave) == note
  {
    Harmony.MidiRoundTrip(note);
  }

  /** A Note On on channels 1 to 16 with a positive velocity decodes to its note. */
  lemma NoteOnRoundTrip(note: Byte, velocity: Byte, channel: nat)
    requires 1 <= channel <= 16 && velocity > 0
    ensures var m := NoteOnMessage(note, velocity, channel);
      (forall k :: 0 <= k < |m| ==> 0 <= m[k] < 256) && Decode(m) == Some(NoteFor(note))
  {
    ChannelNibble(NoteOnStatus, channel);
  }

  /** The Note Off the hook sends is never decoded as a note. */
  lemma NoteOffIgnored(note: Byte, channel: nat)
    requires 1 <= channel <= 16
    ensures var m := NoteOffMessage(note, channel);
      (forall k :: 0 <= k < |m| ==> 0 <= m[k] < 256) && Decode(m) == None
  {
    ChannelNibble(NoteOffStatus, channel);
  }

  /** A Note On with velocity 0, the running-status form of Note Off, is ignored. */
  lemma ZeroVelocityIgnored(note: Byte, channel: nat)
    requires 1 <= channel <= 16
    ensures var m := NoteOnMessage(note, 0, channel);
      (forall k :: 0 <= k < |m| ==> 0 <= m[k] < 256) && Decode(m) == None
  {
    ChannelNibble(NoteOnStatus, channel);
  }

  /** A device id as a JavaScript condition: `null` and the empty string are falsy. */
  predicate Truthy(deviceId: Option<string>)
  {
    deviceId.Some? && deviceId.value != ""
  }

  /** What `navigator.requestMIDIAccess()` provides: the input and output port ids. */
  datatype Access = Access(inputs: set<string>, outputs: set<string>)

  datatype MidiState = MidiState(isConnected: bool, inputs: set<string>, outputs: set<string>,
                                 selectedInput: Option<string>, selectedOutput: Option<string>)

  class MidiHook {
    var midiState: MidiState
    /** `midiAccess.current`. */
    var access: Option<Access>
    /** `selectedInputRef.current` and `selectedOutputRef.current`. */
    var inputPort: Option<string>
    var outputPort: Option<string>
    /** The input ports whose `onmidimessage` is the hook's handler. */
    var listening: set<string>
    /** `noteCallbackRef.current`. */
    var noteCallback: Option<nat>
    /** Every note handed to a callback, with that callback. */
    var delivered: seq<(nat, NoteInfo)>
    /** Every message sent, with its port. */
    var sent: seq<(string, seq<int>)>
    /** The Note Offs waiting for their 100 ms timer, oldest first. */
    var pendingNoteOffs: seq<seq<int>>

    /** At most the selected input listens. */
    ghost predicate Valid()
      reads this
    {
      forall p :: p in listening ==> inputPort == Some(p)
    }

    constructor()
      ensures Valid() && midiState == MidiState(false, {}, {}, None, None)
      ensures access == None && inputPort == None && outputPort == None && listening == {}
      ensures noteCallback == None && delivered == [] && sent == [] && pendingNoteOffs == []
    {
      midiState := MidiState(false, {}, {}, None, None);
      access, inputPort, outputPort, listening := None, None, None, {};
      noteCallback, delivered, sent, pendingNoteOffs := None, [], [], [];
    }

    /** The outcome of requesting access: on success the ports are listed and the hook is
        connected; on failure it is marked not connected. */
    method AccessResolved(result: Option<Access>)
      requires Valid()
      modifies this
      ensures Valid()
      ensures result.Some? ==>
        access == result
        && midiState == old(midiState).(isConnected := true, inputs := result.value.inputs, outputs := result.value.outputs)
      ensures result.None? ==> access == old(access) && midiState == old(midiState).(isConnected := false)
      ensures inputPort == old(inputPort) && outputPort == old(outputPort) && listening == old(listening)
      ensures sent == old(sent) && delivered == old(delivered) && pendingNoteOffs == old(pendingNoteOffs)
      ensures noteCallback == old(noteCallback)
    {
      if result.Some? {
        access := result;
        midiState := midiState.(isConnected := true, inputs := result.value.inputs, outputs := result.value.outputs);
      } else {
        midiState := midiState.(isConnected := false);
      }
    }

    /** `handleMIDIMessage` on the selected input: a decoded note goes to the callback, if one
        is registered. */
    method HandleMidiMessage(data: seq<Byte>)
      modifies this
      ensures Decode(data).Some? && old(noteCallback).Some? ==>
        delivered == old(delivered) + [(old(noteCallback).value, Decode(data).value)]
      ensures !(Decode(data).Some? && old(noteCallback).Some?) ==> delivered == old(delivered)
      ensures noteCallback == old(noteCallback) && sent == old(sent) && midiState == old(midiState)
      ensures access == old(access) && inputPort == old(inputPort) && outputPort == old(outputPort)
      ensures listening == old(listening) && pendingNoteOffs == old(pendingNoteOffs)
    {
      var note := Decode(data);
      if note.Some? && noteCallback.Some? {
        delivered := delivered + [(noteCallback.value, note.value)];
      }
    }

    /** `onNoteReceived`: the new callback replaces the old one. */
    method OnNoteReceived(callback: nat)
      modifies this
      ensures noteCallback == Some(callback) && delivered == old(delivered)
      ensures midiState == old(midiState) && access == old(access)
      ensures inputPort == old(inputPort) && outputPort == old(outputPort) && listening == old(listening)
      ensures sent == old(sent) && pendingNoteOffs == old(pendingNoteOffs)
    {
      noteCallback := Some(callback);
    }

    /** The old input stops listening first. With a (truthy, so non-empty) id and access: a
        known input is selected and listens; an unknown one changes nothing more. Without an id
        or access the selection is cleared. */
    method SetMidiInput(deviceId: Option<string>)
      requires Valid()
      modifies this
      ensures Valid()
      ensures Truthy(deviceId) && old(access).Some? && deviceId.value in old(access).value.inputs ==>
        inputPort == deviceId && listening == {deviceId.value}
        && midiState == old(midiState).(selectedInput := deviceId)
      ensures Truthy(deviceId) && old(access).Some? && deviceId.value !in old(access).value.inputs ==>
        inputPort == old(inputPort) && listening == {} && midiState == old(midiState)
      ensures !Truthy(deviceId) || old(access).None? ==>
        inputPort == None && listening == {} && midiState == old(midiState).(selectedInput := None)
      ensures outputPort == old(outputPort) && access == old(access)
      ensures sent == old(sent) && delivered == old(delivered) && pendingNoteOffs == old(pendingNoteOffs)
      ensures noteCallback == old(noteCallback)
    {
      if inputPort.Some? {
        listening := listening - {inputPort.value};
      }
      assert listening == {};
      if Truthy(deviceId) && access.Some? {
        if deviceId.value in access.value.inputs {
          listening := listening + {deviceId.value};
          inputPort := deviceId;
          midiState := midiState.(selectedInput := deviceId);
        }
      } else {
        inputPort := None;
        midiState := midiState.(selectedInput := None);
      }
    }

    /** With a (non-empty) id and access a known output is selected (an unknown one changes
        nothing); without either the selection is cleared. */
    method SetMidiOutput(deviceId: Option<string>)
      requires Valid()
      modifies this
      ensures Valid()
      ensures Truthy(deviceId) && old(access).Some? && deviceId.value in old(access).value.outputs ==>
        outputPort == deviceId && midiState == old(midiState).(selectedOutput := deviceId)
      ensures Truthy(deviceId) && old(access).Some? && deviceId.value !in old(access).value.outputs ==>
        outputPort == old(outputPort) && midiState == old(midiState)
      ensures !Truthy(deviceId) || old(access).None? ==>
        outputPort == None && midiState == old(midiState).(selectedOutput := None)
      ensures inputPort == old(inputPort) && listening == old(listening) && access == old(access)
      ensures sent == old(sent) && delivered == old(delivered) && pendingNoteOffs == old(pendingNoteOffs)
      ensures noteCallback == old(noteCallback)
    {
      if Truthy(deviceId) && access.Some? {
        if deviceId.value in access.value.outputs {
          outputPort := deviceId;
          midiState := midiState.(selectedOutput := deviceId);
        }
      } else {
        outputPort := None;
        midiState := midiState.(selectedOutput := None);
      }
    }

    /** With an output selected, the Note On is sent and its Note Off queued; otherwise
        nothing happens. */
    method SendMidiNote(note: int, velocity: int, channel: nat)
      requires Valid() && channel >= 1
      modifies this
      ensures Valid()
      ensures old(outputPort).Some? ==>
        sent == old(sent) + [(old(outputPort).value, NoteOnMessage(note, velocity, channel))]
        && pendingNoteOffs == old(pendingNoteOffs) + [NoteOffMessage(note, channel)]
      ensures old(outputPort).None? ==> sent == old(sent) && pendingNoteOffs == old(pendingNoteOffs)
      ensures outputPort == old(outputPort) && inputPort == old(inputPort) && listening == old(listening)
      ensures midiState == old(midiState) && delivered == old(delivered)
      ensures access == old(access) && noteCallback == old(noteCallback)
    {
      if outputPort.Some? {
        sent := sent + [(outputPort.value, NoteOnMessage(note, velocity, channel))];
        pendingNoteOffs := pendingNoteOffs + [NoteOffMessage(note, channel)];
      }
    }

    /** The oldest Note Off's timer: it goes to whichever output is selected now, if any. */
    method NoteOffTimerFires()
      requires Valid() && pendingNoteOffs != []
      modifies this
      ensures Valid() && pendingNoteOffs == old(pendingNoteOffs)[1..]
      ensures outputPort.Some? ==> sent == old(sent) + [(outputPort.value, old(pendingNoteOffs)[0])]
      ensures outputPort.None? ==> sent == old(sent)
      ensures outputPort == old(outputPort) && midiState == old(midiState)
      ensures access == old(access) && inputPort == old(inputPort) && listening == old(listening)
      ensures noteCallback == old(noteCallback) && delivered == old(delivered)
    {
      if outputPort.Some? {
        sent := sent + [(outputPort.value, pendingNoteOffs[0])];
      }
      pendingNoteOffs := pendingNoteOffs[1..];
    }

    /** With an output selected, note i is sent on channel i + 1 at velocity 100. */
    method SendHarmonyMidi(midiNotes: seq<int>)
      requires Valid()
      modifies this
      ensures Valid()
      ensures old(outputPort).Some? ==>
        sent == old(sent) + HarmonyNoteOns(old(outputPort).value, midiNotes, 0)
        && pendingNoteOffs == old(pendingNoteOffs) + HarmonyNoteOffs(midiNotes, 0)
      ensures old(outputPort).None? ==> sent == old(sent) && pendingNoteOffs == old(pendingNoteOffs)
      ensures outputPort == old(outputPort) && midiState == old(midiState)
      ensures access == old(access) && inputPort == old(inputPort) && listening == old(listening)
      ensures noteCallback == old(noteCallback) && delivered == old(delivered)
    {
      if outputPort.None? {
        return;
      }
      var port := outputPort.value;
      for i := 0 to |midiNotes|
        invariant Valid() && outputPort == Some(port) && midiState == old(midiState)
        invariant access == old(access) && inputPort == old(inputPort) && listening == old(listening)
        invariant noteCallback == old(noteCallback) && delivered == old(delivered)
        invariant sent + HarmonyNoteOns(port, midiNotes[i..], i) == old(sent) + HarmonyNoteOns(port, midiNotes, 0)
        invariant pendingNoteOffs + HarmonyNoteOffs(midiNotes[i..], i) == old(pendingNoteOffs) + HarmonyNoteOffs(midiNotes, 0)
      {
        assert midiNotes[i..][1..] == midiNotes[i + 1..];
        SendMidiNote(midiNotes[i], HarmonyVelocity, i + 1);
      }
    }
  }

  /** The Note Ons for notes sent on channels first + 1, first + 2, ... */
  function HarmonyNoteOns(port: string, notes: seq<int>, first: nat): seq<(string, seq<int>)>
  {
    if notes == [] then []
    else [(port, NoteOnMessage(notes[0], HarmonyVelocity, first + 1))] + HarmonyNoteOns(port, notes[1..], first + 1)
  }

  function HarmonyNoteOffs(notes: seq<int>, first: nat): seq<seq<int>>
  {
    if notes == [] then []
    else [NoteOffMessage(notes[0], first + 1)] + HarmonyNoteOffs(notes[1..], first + 1)
  }

  /** Message i of a harmony is note i on channel first + i + 1. */
  lemma {:induction false} HarmonyMessages(port: string, notes: seq<int>, first: nat, i: nat)
    requires i < |notes|
    ensures |HarmonyNoteOns(port, notes, first)| == |HarmonyNoteOffs(notes, first)| == |notes|
    ensures HarmonyNoteOns(port, notes, first)[i] == (port, NoteOnMessage(notes[i], HarmonyVelocity, first + i + 1))
    ensures HarmonyNoteOffs(notes, first)[i] == NoteOffMessage(notes[i], first + i + 1)
  {
    if i > 0 {
      HarmonyMessages(port, notes[1..], first + 1, i - 1);
    } else if |notes| > 1 {
      HarmonyMessages(port, notes[1..], first + 1, 0);
    }
  }

  /** A four-voice harmony sent bass first goes out as Note Ons on channels 1 to 4; each
      decodes back to its note by `NoteOnRoundTrip`. */
  lemma HarmonyChannels(port: string, notes: seq<Byte>)
    requires |notes| == 4
    ensures |HarmonyNoteOns(port, notes, 0)| == 4
    ensures forall i :: 0 <= i < 4 ==>
      HarmonyNoteOns(port, notes, 0)[i] == (port, NoteOnMessage(notes[i], HarmonyVelocity, i + 1))
      && NoteOnMessage(notes[i], HarmonyVelocity, i + 1)[0] == 0x90 + i
  {
    HarmonyMessages(port, notes, 0, 0);
    forall i | 0 <= i < 4
      ensures HarmonyNoteOns(port, notes, 0)[i] == (port, NoteOnMessage(notes[i], HarmonyVelocity, i + 1))
      ensures NoteOnMessage(notes[i], HarmonyVelocity, i + 1)[0] == 0x90 + i
    {
      HarmonyMessages(port, notes, 0, i);
      ChannelNibble(NoteOnStatus, i + 1);
    }
  }
}
