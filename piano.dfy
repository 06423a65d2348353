/** The note-name and pitch arithmetic of piano.h. The enum starts at A, so index 0
    is A, not C. */
module Piano {
  import opened Definitions

  datatype PianoNote = A | ASharp | B | C | CSharp | D | DSharp | E | F | FSharp | G | GSharp

  /** `all_notes`, in enum order. */
  const AllNotes: seq<PianoNote> := [A, ASharp, B, C, CSharp, D, DSharp, E, F, FSharp, G, GSharp]

  /** `static_cast<int>(note)`: the position of the note in the enum. */
  function Index(n: PianoNote): (i: int)
    ensures 0 <= i < |AllNotes| && AllNotes[i] == n
  {
    match n
    case A => 0 case ASharp => 1 case B => 2 case C => 3
    case CSharp => 4 case D => 5 case DSharp => 6 case E => 7
    case F => 8 case FSharp => 9 case G => 10 case GSharp => 11
  }

  /** Reading `all_notes` at an index gives back the note whose enum value it is. */
  lemma AllNotesInEnumOrder(i: int)
    requires 0 <= i < |AllNotes|
    ensures Index(AllNotes[i]) == i
  {
  }

  function ToString(n: PianoNote): (s: string)
  {
    match n
    case C => "C" case CSharp => "C#" case D => "D" case DSharp => "D#"
    case E => "E" case F => "F" case FSharp => "F#" case G => "G"
    case GSharp => "G#" case A => "A" case ASharp => "A#" case B => "B"
  }

  /** Every note has its own name, and none of them is the fallback "Unknown". */
  lemma ToStringNames(n: PianoNote, m: PianoNote)
    ensures ToString(n) != "Unknown"
    ensures n != m ==> ToString(n) != ToString(m)
  {
  }

  /** The semitone distance from A4 used by `note_frequency`. */
  function SemitonesFromA4(n: PianoNote, octave: int): (s: int)
    ensures s == 0 <==> n == A && octave == 4
    ensures s - Index(n) == (octave - 4) * 12
  {
    Index(n) - Index(A) + (octave - 4) * 12
  }

  /** `note_frequency`, with `std::pow(2, x)` given as `pow2`. A4 is 440 Hz whenever
      `pow2` maps 0 to 1. */
  function NoteFrequency(n: PianoNote, octave: int, pow2: real -> real): (f: real)
    ensures pow2(0.0) == 1.0 && n == A && octave == 4 ==> f == 440.0
  {
    440.0 * pow2(SemitonesFromA4(n, octave) as real / 12.0)
  }

  /** `note_to_midi`. */
  function NoteToMidi(n: PianoNote, octave: int): (m: int)
    ensures m - 12 * octave == Index(n) + 33
  {
    Index(n) + (octave + 1) * 12 + 21
  }

  /** As written, A4 gets the number 81 (the accompanying comment says 69), and 81 is
      read back by `midi_to_frequency` as F#5. */
  lemma A4IsNumbered81()
    ensures NoteToMidi(A, 4) == 81
    ensures MidiPitch(81) == Some(Pitch(FSharp, 5))
  {
  }

  datatype Pitch = Pitch(note: PianoNote, octave: int)

  /** The decomposition and guard of `midi_to_frequency`: octave is the truncated
      quotient minus one, the note index the C++ remainder, which is negative for a
      negative number that is not a multiple of 12. */
  function MidiPitch(m: int): (p: Option<Pitch>)
    ensures p.None? <==> m < 0 && m % 12 != 0
    ensures p.Some? ==> Index(p.value.note) == TruncRem(m, 12)
    ensures p.Some? ==> p.value.octave == TruncDiv(m, 12) - 1
  {
    var octave := TruncDiv(m, 12) - 1;
    var noteIndex := TruncRem(m, 12);
    if noteIndex < 0 || noteIndex >= |AllNotes| then None
    else Some(Pitch(AllNotes[noteIndex], octave))
  }

  /** `midi_to_frequency`: 0 for a number the guard rejects. */
  function MidiToFrequency(m: int, pow2: real -> real): (f: real)
    ensures MidiPitch(m).None? ==> f == 0.0
    ensures MidiPitch(m).Some? ==> f == NoteFrequency(MidiPitch(m).value.note, MidiPitch(m).value.octave, pow2)
  {
    match MidiPitch(m)
    case None => 0.0
    case Some(p) => NoteFrequency(p.note, p.octave, pow2)
  }

  /** With a positive `pow2`, the frequency is 0 exactly when the guard rejects. */
  lemma MidiToFrequencyZero(m: int, pow2: real -> real)
    requires forall x :: pow2(x) > 0.0
    ensures MidiToFrequency(m, pow2) == 0.0 <==> m < 0 && m % 12 != 0
  {
    if MidiPitch(m).Some? {
      var p := MidiPitch(m).value;
      assert pow2(SemitonesFromA4(p.note, p.octave) as real / 12.0) > 0.0;
    }
  }

  /** `note_to_midi` is not the inverse of the decomposition: a number that decomposes
      comes back shifted by 21. */
  lemma NoteToMidiAfterPitch(m: int)
    requires MidiPitch(m).Some?
    ensures NoteToMidi(MidiPitch(m).value.note, MidiPitch(m).value.octave) == m + 21
  {
  }
}
