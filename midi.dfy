/** MIDI input (MidiManager.h/.cpp): an incoming message is classified by its status
    byte and handed to the registered note callbacks or general callbacks. The status
    layout is that of the MIDI 1.0 Detailed Specification: the high nibble of a
    channel message is its kind (0x8 Note Off, 0x9 Note On, 0xA to 0xE the other
    channel-voice messages) and the low nibble its channel. */
module Midi {

  /** `unsigned char`. */
  newtype byte = x: int | 0 <= x < 256

  /** What `midiInputCallback` does with a message. */
  datatype Dispatch =
    | Dropped
    | ToNoteCallbacks(note: int, velocity: int)
    | ToGeneralCallbacks(status: int, note: int, velocity: int)

  /** The decision of `midiInputCallback` for `message`, delivered to a manager that is
      present or null: short messages and status bytes outside 0x80-0xEF are dropped,
      0x90-0x9F goes to the note callbacks with the two data bytes, and every other
      channel status to the general callbacks with all three bytes. */
  function Classify(hasManager: bool, message: seq<byte>): Dispatch
  {
    if !hasManager || |message| < 3 then Dropped
    else
      var status := message[0] as int;
      var note := message[1] as int;
      var velocity := message[2] as int;
      if status < 0x80 || status > 0xEF then Dropped
      else if status >= 0x90 && status <= 0x9F then ToNoteCallbacks(note, velocity)
      else ToGeneralCallbacks(status, note, velocity)
  }

  /** The classification in terms of the status byte's high nibble: a message is
      dropped exactly when there is no manager, it is shorter than three bytes, or its
      status is not a channel message (high nibble below 0x8 or equal to 0xF); a
      Note On of any channel reaches the note callbacks with its data bytes unchanged;
      every other channel message, Note Off included, reaches only the general
      callbacks. */
  lemma ClassifyByNibble(hasManager: bool, message: seq<byte>)
    ensures Classify(hasManager, message) == Dropped <==>
      !hasManager || |message| < 3 || message[0] as int / 16 < 0x8 || message[0] as int / 16 == 0xF
    ensures Classify(hasManager, message).ToNoteCallbacks? <==>
      hasManager && |message| >= 3 && message[0] as int / 16 == 0x9
    ensures Classify(hasManager, message).ToNoteCallbacks? ==>
      Classify(hasManager, message) == ToNoteCallbacks(message[1] as int, message[2] as int)
    ensures Classify(hasManager, message).ToGeneralCallbacks? <==>
      hasManager && |message| >= 3 && 0x8 <= message[0] as int / 16 <= 0xE && message[0] as int / 16 != 0x9
    ensures Classify(hasManager, message).ToGeneralCallbacks? ==>
      Classify(hasManager, message) == ToGeneralCallbacks(message[0] as int, message[1] as int, message[2] as int)
  {
  }

  /** A MIDI Note Off (status 0x80-0x8F) never reaches the note callbacks. */
  lemma NoteOffIsGeneral(message: seq<byte>)
    requires |message| >= 3 && 0x80 <= message[0] as int <= 0x8F
    ensures Classify(true, message) == ToGeneralCallbacks(message[0] as int, message[1] as int, message[2] as int)
  {
  }

  /** Only the first three bytes are read: a longer message is classified like its
      three-byte prefix. */
  lemma OnlyThreeBytesRead(hasManager: bool, message: seq<byte>)
    requires |message| >= 3
    ensures Classify(hasManager, message) == Classify(hasManager, message[..3])
  {
  }

  /** The callbacks the backend registers with the manager. */
  datatype NoteCallback = RouteToSelectedGenerator
  datatype GeneralCallback = LogMessage

  /** One invocation of a registered callback, with its arguments. */
  datatype Call =
    | NoteCall(noteTarget: NoteCallback, note: int, velocity: int)
    | GeneralCall(generalTarget: GeneralCallback, status: int, note: int, velocity: int)

  /** The invocations a decision leads to: every callback of the chosen list, in
      registration order, with the same arguments. */
  function Calls(d: Dispatch, notes: seq<NoteCallback>, generals: seq<GeneralCallback>): (calls: seq<Call>)
    ensures d.Dropped? ==> calls == []
    ensures d.ToNoteCallbacks? ==> |calls| == |notes| && forall i :: 0 <= i < |calls| ==>
      calls[i] == NoteCall(notes[i], d.note, d.velocity)
    ensures d.ToGeneralCallbacks? ==> |calls| == |generals| && forall i :: 0 <= i < |calls| ==>
      calls[i] == GeneralCall(generals[i], d.status, d.note, d.velocity)
  {
    match d
    case Dropped => []
    case ToNoteCallbacks(n, v) => seq(|notes|, i requires 0 <= i < |notes| => NoteCall(notes[i], n, v))
    case ToGeneralCallbacks(s, n, v) => seq(|generals|, i requires 0 <= i < |generals| => GeneralCall(generals[i], s, n, v))
  }

  class MidiManager {
    var noteCallbacks: seq<NoteCallback>
    var generalCallbacks: seq<GeneralCallback>
    var enabled: bool

    /** A manager with no callbacks, disabled until an input port is opened. */
    constructor()
      ensures noteCallbacks == [] && generalCallbacks == [] && !enabled
    {
      noteCallbacks := [];
      generalCallbacks := [];
      enabled := false;
    }

    /** `note_callbacks.emplace_back`. */
    method AddNoteCallback(cb: NoteCallback)
      modifies this`noteCallbacks
      ensures noteCallbacks == old(noteCallbacks) + [cb]
    {
      noteCallbacks := noteCallbacks + [cb];
    }

    /** `general_callbacks.emplace_back`. */
    method AddGeneralCallback(cb: GeneralCallback)
      modifies this`generalCallbacks
      ensures generalCallbacks == old(generalCallbacks) + [cb]
    {
      generalCallbacks := generalCallbacks + [cb];
    }
  }

  /** `midiInputCallback`: the invocations made for `message`, in order. */
  method InputCallback(manager: MidiManager?, message: seq<byte>) returns (calls: seq<Call>)
    ensures manager == null ==> calls == []
    ensures manager != null ==>
      calls == Calls(Classify(true, message), manager.noteCallbacks, manager.generalCallbacks)
  {
    calls := [];
    if manager == null || |message| < 3 {
      return;
    }
    var status := message[0] as int;
    var note := message[1] as int;
    var velocity := message[2] as int;
    if status < 0x80 || status > 0xEF {
      return;
    }
    if status >= 0x90 && status <= 0x9F {
      var i := 0;
      while i < |manager.noteCallbacks|
        invariant 0 <= i <= |manager.noteCallbacks|
        invariant calls == Calls(ToNoteCallbacks(note, velocity), manager.noteCallbacks[..i], [])
      {
        calls := calls + [NoteCall(manager.noteCallbacks[i], note, velocity)];
        i := i + 1;
      }
      assert manager.noteCallbacks[..i] == manager.noteCallbacks;
    } else {
      var i := 0;
      while i < |manager.generalCallbacks|
        invariant 0 <= i <= |manager.generalCallbacks|
        invariant calls == Calls(ToGeneralCallbacks(status, note, velocity), [], manager.generalCallbacks[..i])
      {
        calls := calls + [GeneralCall(manager.generalCallbacks[i], status, note, velocity)];
        i := i + 1;
      }
      assert manager.generalCallbacks[..i] == manager.generalCallbacks;
    }
  }
}
