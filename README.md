# EvilStudio audio engine core, in Dafny

This project models the bookkeeping at the heart of the EvilStudio audio engine, a
small C++ synthesiser and sequencer. It also proves what that code promises. The
model covers:

- **The transport.** `SequencerState` keeps a song position that moves only while
  playing and a processed-sample clock that moves on every device callback. Its
  patterns (`Pattern`) hold note sequences (`NoteSequence`). A note sequence sends
  Note-On and Note-Off calls to its generator as the song position crosses each
  note's play and stop times.
- **The ADSR envelope of a voice** (`AdsrEnvelope` in `Voice.h`). It moves through
  Attack, Decay, Sustain and Release by comparing sample indices. Its gain is a
  linear interpolation.
- **The waveform generator** (`AudioGenerator`, `WaveformGenerator`):
  - two double-buffered note queues;
  - one cycle of `Process`: swap the slots, drain Note-Ons into unison voices,
    drain Note-Offs into releases, render every frame additively into an
    interleaved buffer, and remove the voices whose release has run out.
- **The backend's device callback** (`data_callback`):
  - zero the scratch buffer;
  - run every generator, in registration order, from the same processed-sample
    clock;
  - apply the master pan;
  - move the transport if it is playing, and deliver its calls to the generators;
  - advance the processed-sample clock;
  - scale the output by the master volume.
- **The backend's other duties:** generator selection, the MIDI note callback, the
  reset callback and the MIDI input classification of `midiInputCallback`.
- **The leaf helpers:**
  - the linear pan law and the phase-folded waveform branches of `audio_math.h`;
  - the note and octave arithmetic of `piano.h`;
  - `intersect_rects` from the UI layer.

## How the model is built

- **Values and objects.**
  - Records held by value inside vectors are datatypes: `Note`, `Voice`,
    `AdsrEnvelope`, `NoteSequence` and `Pattern`. Their updating members are
    functions or methods that return the new value.
  - Objects whose fields are updated in place are classes: `WaveformGenerator`,
    `SequencerState`, `MidiManager` and `AudioBackend`.
  - Each class method is proved against a specification function on a value of its
    state. Examples: `GenState`/`AfterCycle`/`CycleMix` for a generator cycle, and
    `TransportState`/`Advanced` for the transport.
- **Calls between objects.** The sequencer reaches its generators through raw
  addresses; here it returns the calls it makes as a list of events instead.
  - Each event is `(generator index, On|Off, note)`.
  - The backend delivers the events in order.
  - `DeliverAll` states where each event lands.
- **Numbers.**
  - Floating point is modelled over `real`. The sample clocks (`uint64_t`) are
    modelled as `nat`.
  - C++ truncating `/` and `%` on `int` are written out (`TruncDiv`, `TruncRem`),
    as is the truncating float-to-int cast (`Trunc`).
- **Parameters.** The sine, arcsine and `std::pow`, the noise table and successive
  `rand()` values are passed in as an `Externals` value.

Where the design description and the code disagree, the model follows the code:

- **Unison detune.** The detune of unison voice `i` is `(i - (unison - 1) / 2) * 0.5`,
  converted with `pow(2, x / 1200)`. That is half a *cent* per step, not the semitone
  spread the description mentions.
- **Note numbering.** `note_to_midi` gives 81 for A4, although the comment beside it
  says 69. `Piano.A4IsNumbered81` records this.
- **Repeated Note-Off.** `NoteSequence::update` sends a Note-Off at every update once
  the stop time has passed, and a drained Note-Off re-enters Release from the current
  sample.
  - A voice whose release is longer than one callback is therefore never removed while
    the transport keeps playing.
  - `Generator.RepeatedNoteOffKeepsVoice` and `Sequencing.NoteOffRepeats` state this.
  - The description's expectation that the voice count returns to 0 holds only once
    the transport stops.
- **`enterRelease` calls.** `enterRelease` runs on every drained Note-Off that
  matches, not once per voice.

## Model

| member | source | states |
|---|---|---|
| Definitions.NoteEvent | src/audio/Sequencing/Note.h:7-17 | `{note, velocity}` keeps the two given fields, and every other field takes its default (pan 0, both times 0, not playing) |
| Definitions.TruncDiv | src/audio/piano.h:62 | the C++ quotient: truncated toward zero, equal to Euclidean division for a non-negative dividend |
| Definitions.TruncRem | src/audio/piano.h:63 | the C++ remainder: dividend = quotient × divisor + remainder, \|remainder\| < divisor, and it is negative exactly for a negative dividend that is not a multiple |
| Definitions.Trunc | src/audio/audio_math.h:60 | `static_cast<int>` of a real truncates toward zero, on both sides of 0 |
| AudioMath.PanGains | src/audio/audio_math.h:22-23 | the left and right gains add up to 1, and their difference is the pan position |
| AudioMath.Pan | src/audio/audio_math.h:20-26 | the left output is the left input times the left gain, and the right output is the right input times the right gain |
| AudioMath.PanPositions | src/audio/audio_math.h:20-26 | hard left keeps only the left input, hard right only the right input, and the centre halves both |
| AudioMath.PanSplitsMono | src/audio/audio_math.h:22-25 | panning a mono frame splits the sample between the channels without loss |
| AudioMath.FoldPhase | src/audio/audio_math.h:31-33 | the folded phase lies in [0, 2π) for every input phase |
| AudioMath.FoldPhaseTurns | src/audio/audio_math.h:31-33 | folding removes a whole number of turns and leaves a phase in [0, 2π) unchanged |
| AudioMath.NoiseIndex | src/audio/audio_math.h:60 | the noise-table index lies in [0, NOISE_SAMPLES) |
| AudioMath.WaveformShapes | src/audio/audio_math.h:28-71 | Square is +1 exactly below π and −1 otherwise; Saw is folded/π − 1, in [−1, 1); Noise reads the table at the folded phase's index; an unrecognised waveform gives 0 |
| AudioMath.SquareHalves | src/audio/audio_math.h:43-46 | the square wave is +1 on [0, π) and −1 on [π, 2π) |
| Piano.Index | src/audio/piano.h:7-20 | the enum position of a note, in [0, 12), and `all_notes` at that position is the note |
| Piano.AllNotesInEnumOrder | src/audio/piano.h:22-27 | `all_notes[i]` is the note whose enum value is `i`, so index 0 is A, not C |
| Piano.ToStringNames | src/audio/piano.h:29-45 | every note has a name other than "Unknown", and distinct notes have distinct names |
| Piano.SemitonesFromA4 | src/audio/piano.h:50 | the offset is index + 12·(octave − 4), and it is 0 exactly for A4 |
| Piano.NoteFrequency | src/audio/piano.h:47-52 | A4 is 440 Hz whenever `pow(2, 0)` is 1 |
| Piano.NoteToMidi | src/audio/piano.h:54-58 | the number is index + 12·(octave + 1) + 21 |
| Piano.A4IsNumbered81 | src/audio/piano.h:54-58 | A4 gets 81, and 81 decomposes as F#5 |
| Piano.MidiPitch | src/audio/piano.h:62-66 | octave is the truncated quotient minus 1 and the note index is the C++ remainder; the guard rejects exactly a negative number that is not a multiple of 12 |
| Piano.MidiToFrequency | src/audio/piano.h:60-68 | 0 when the guard rejects, otherwise `note_frequency` of the decomposed note and octave |
| Piano.MidiToFrequencyZero | src/audio/piano.h:64-66 | with a positive `pow`, the frequency is 0 exactly when the guard rejects |
| Piano.NoteToMidiAfterPitch | src/audio/piano.h:57-67 | renumbering a decomposed number with `note_to_midi` gives the number plus 21 |
| Envelope.LerpTension | src/audio/Sequencing/Voice.h:83-85 | the result is a at t = 0 and b at t = 1 |
| Envelope.TensionIgnored | src/audio/Sequencing/Voice.h:83-85 | the tension argument never changes the result |
| Envelope.LerpBetween | src/audio/Sequencing/Voice.h:83-85 | for t in [0, 1) the result lies between the ends and does not reach b unless a = b |
| Envelope.Process | src/audio/Sequencing/Voice.h:33-75 | only the state and the current amplitude change, and the amplitude is the returned gain; the kill flag is never cleared and is raised exactly when a Release has run out; the only transitions are Attack→Decay and Decay→Sustain, each exactly at its boundary |
| Envelope.AttackGain | src/audio/Sequencing/Voice.h:35-45 | the gain is 1 once the attack is over; before that it is elapsed/attackTime, in [0, 1) |
| Envelope.DecayGain | src/audio/Sequencing/Voice.h:46-56 | the gain is the sustain level once the decay is over; before that it falls linearly from 1 toward the sustain level |
| Envelope.SustainHolds | src/audio/Sequencing/Voice.h:57-60 | Sustain returns the sustain level and stays in Sustain |
| Envelope.ReleaseGain | src/audio/Sequencing/Voice.h:61-71 | the gain is 0 once the release time has elapsed; before that it falls linearly from the release-start amplitude |
| Envelope.EnterRelease | src/audio/Sequencing/Voice.h:77-80 | the state becomes Release, the release start becomes the current amplitude, and nothing else changes |
| Envelope.ReleaseIsContinuous | src/audio/Sequencing/Voice.h:61-80 | released right after a `process` call, the release starts from the gain that call returned, and its first sample plays that gain again |
| Envelope.ReachesSustain | src/audio/Sequencing/Voice.h:35-60 | once attack and decay are over, two calls from Attack reach Sustain at the sustain level, and later calls keep it |
| GeneratorSpec.SecondsToSamples | src/audio/Generators/WaveformGenerator.cpp:46-51 | the sample count is the floor of seconds × 44100 |
| GeneratorSpec.UnisonCount | src/audio/Generators/WaveformGenerator.cpp:20 | the unison loop runs `unison` times, or not at all when unison ≤ 0 |
| GeneratorSpec.UnisonPanSpread | src/audio/Generators/WaveformGenerator.cpp:29-33 | pans lie in [−1, 1]; a single voice is centred; the first voice is hard left and the last hard right; mirrored voices have opposite pans; neighbours are equally spaced |
| GeneratorSpec.DetuneSymmetric | src/audio/Generators/WaveformGenerator.cpp:19-23 | the detune of mirrored unison voices is opposite |
| GeneratorSpec.NewVoice | src/audio/Generators/WaveformGenerator.cpp:14-52 | id = note number, creation time = sample, amplitude·unison·127 = velocity, pan as spread, envelope in Attack with the converted times and the sustain level; phase 0 without randomisation and draw × randomisation with it; frequency = `midi_to_frequency(note)` × `pow(2, detune cents / 1200)`; the detune field stays 0 |
| GeneratorSpec.DrawUnused | src/audio/Generators/WaveformGenerator.cpp:36-41 | without phase randomisation the random draw plays no part |
| GeneratorSpec.Unison | src/audio/Generators/WaveformGenerator.cpp:20-55 | one drained Note-On yields exactly `unison` voices |
| GeneratorSpec.SpawnedLength | src/audio/Generators/WaveformGenerator.cpp:13-55 | draining a Note-On queue spawns exactly queue length × unison voices |
| GeneratorSpec.SpawnedVoice | src/audio/Generators/WaveformGenerator.cpp:13-55 | voice i of queued Note-On k is at position k·unison + i of the new voices (queue order, then unison order), and it takes the random value at stream position from + k·unison + i |
| GeneratorSpec.UnisonReadsOwnDraws | src/audio/Generators/WaveformGenerator.cpp:20-41 | one Note-On's voices read the random stream only at their own positions first … first + unison − 1, and only with phase randomisation on |
| GeneratorSpec.SpawnedReadsOwnDraws | src/audio/Generators/WaveformGenerator.cpp:13-41 | a drain that starts at stream position `from` reads the stream only at the queue length × unison positions from `from` on, and only with phase randomisation on |
| GeneratorSpec.UnisonNormalised | src/audio/Generators/WaveformGenerator.cpp:17-26 | a note's unison amplitudes add up to velocity/127 |
| GeneratorSpec.UnisonAmplitude | src/audio/Generators/WaveformGenerator.cpp:26 | every unison voice of a note has amplitude velocity / (unison × 127) |
| GeneratorSpec.ReleaseVoice | src/audio/Generators/WaveformGenerator.cpp:68-73 | a released voice is in Release, rebased to the drain sample, and its release starts from its current amplitude; nothing else changes |
| GeneratorSpec.ReleaseVoiceIdempotent | src/audio/Generators/WaveformGenerator.cpp:68-73 | releasing twice at the same sample is releasing once |
| GeneratorSpec.ReleaseAllMatches | src/audio/Generators/WaveformGenerator.cpp:61-78 | the Note-Off drain releases exactly the voices whose number is queued, and leaves every other voice unchanged (a Note-Off matching nothing is a no-op) |
| GeneratorSpec.OnThenOffReleased | src/audio/Generators/WaveformGenerator.cpp:86-87 | a note switched on and off in one cycle yields voices already in Release, timed from this cycle |
| GeneratorSpec.DrainedTimely | src/audio/Generators/WaveformGenerator.cpp:84-87 | after the drains every voice, old or new, can be processed from the cycle's first sample on |
| GeneratorSpec.PhaseStaysInTurn | src/audio/Generators/WaveformGenerator.cpp:95-97 | for a frequency between 0 and the sample rate, the advanced phase stays in [0, 2π) |
| GeneratorSpec.VoiceTick | src/audio/Generators/WaveformGenerator.cpp:95-102 | one frame changes only a voice's phase and envelope (one `process` step), and marks it exactly when its Release has run out |
| GeneratorSpec.ExpiredVoiceSilent | src/audio/Generators/WaveformGenerator.cpp:98-111 | a voice whose release has run out adds silence in the frame in which it is marked |
| GeneratorSpec.MixOutsSums | src/audio/Generators/WaveformGenerator.cpp:105-111 | a frame's first entry grows by the sum of the voices' left samples, its second (stereo) by the sum of the right samples, and nothing else changes |
| GeneratorSpec.StepVoice | src/audio/Generators/WaveformGenerator.cpp:94-116 | one frame keeps a voice's id, reference time, release time and whether it is in Release, and marks it exactly when it was marked or has expired |
| GeneratorSpec.VoiceKept | src/audio/Generators/WaveformGenerator.cpp:91-117 | across the frames a voice keeps its id, reference time and release time, and stays in Release exactly when it was |
| GeneratorSpec.KilledExactly | src/audio/Generators/WaveformGenerator.cpp:101-115 | after n frames a voice is marked exactly when its Release had run out by the last frame's sample |
| GeneratorSpec.MixFramesFrame | src/audio/Generators/WaveformGenerator.cpp:91-111 | each rendered frame holds its old samples plus the sum of its voices' contributions, at offset f·channels |
| GeneratorSpec.MixFramesBeyond | src/audio/Generators/WaveformGenerator.cpp:91-111 | the buffer beyond the rendered frames is untouched |
| GeneratorSpec.SurvivorIndices | src/audio/Generators/WaveformGenerator.cpp:120-129 | the kept positions are strictly increasing, each unmarked, and every unmarked position is kept |
| GeneratorSpec.Survivors | src/audio/Generators/WaveformGenerator.cpp:120-129 | the kept voices are exactly the unmarked ones, in their original order |
| Generator.Push | src/audio/AudioGenerator.h:34-42 | appending to slot i puts the note at the end of that slot and leaves the other slot alone |
| Generator.Clear | src/audio/Generators/WaveformGenerator.cpp:57-76 | clearing slot i empties it and leaves the other slot alone |
| Generator.AfterCycle | src/audio/Generators/WaveformGenerator.cpp:80-130 | after a cycle the write index is flipped, both read-slot queues are empty, the write-slot queues are untouched, the parameters are kept, and the voices can be processed from the next cycle's sample |
| Generator.CycleReadsOwnDraws | src/audio/Generators/WaveformGenerator.cpp:36-41 | a cycle that starts at stream position `from` depends on `rand()` only through its own `CycleDraws` values from `from` on: two streams that agree there give the same voices, the same new state and the same buffer |
| Generator.RepeatedNoteOffKeepsVoice | src/audio/Generators/WaveformGenerator.cpp:64-74 | a voice re-released by a drained Note-Off, with a release time at least the cycle length, is still in Release at the end of the cycle and is not removed |
| Generator.WaveformGenerator.constructor | src/audio/Generators/WaveformGenerator.h:10-19 | a sine with attack 1 s, decay 0.1 s, sustain 0.7, release 1 s, one unison voice, no phase randomisation, volume 0.5, pan 0, no voices, empty queues and write index 0 |
| Generator.WaveformGenerator.NoteOn | src/audio/AudioGenerator.h:34-37 | the note is appended to the Note-On queue of the write slot; the other slot, the Note-Off queues, the voices and the index are unchanged |
| Generator.WaveformGenerator.NoteOff | src/audio/AudioGenerator.h:39-42 | the note is appended to the Note-Off queue of the write slot; everything else is unchanged |
| Generator.WaveformGenerator.ProcessScheduledNoteOns | src/audio/Generators/WaveformGenerator.cpp:10-59 | the voices of every queued Note-On are appended in queue order, and the queue is emptied; the `rand()` calls continue the stream from `from`, and the returned position is `from` plus queue length × unison with phase randomisation, or `from` without it |
| Generator.WaveformGenerator.SpawnQueue | src/audio/Generators/WaveformGenerator.cpp:13-56 | the loop over the queued Note-Ons: their voices are appended in queue order from stream position `from`, and the returned position counts the calls |
| Generator.WaveformGenerator.SpawnUnison | src/audio/Generators/WaveformGenerator.cpp:20-55 | one Note-On appends its unison voices in order, drawing one random value per voice only when phase randomisation is on |
| Generator.WaveformGenerator.ProcessScheduledNoteOffs | src/audio/Generators/WaveformGenerator.cpp:61-78 | every queued Note-Off, in order, releases the matching voices, and the queue is emptied |
| Generator.WaveformGenerator.Process | src/audio/Generators/WaveformGenerator.cpp:80-130 | the generator ends in `AfterCycle` of its old state, and the buffer in `CycleMix` of the old buffer, both read from stream position `from`; the returned position is `from` + `CycleDraws` of the old state |
| Generator.WaveformGenerator.SwapAndDrain | src/audio/Generators/WaveformGenerator.cpp:84-87 | the index flips, the slot that was being written is drained (Note-Ons first) and cleared, and the other slot is untouched; the returned stream position is `from` + `CycleDraws` of the old state |
| Generator.WaveformGenerator.RenderCycle | src/audio/Generators/WaveformGenerator.cpp:89-129 | the frames are mixed into the buffer, and the voices marked during them are removed |
| Generator.WaveformGenerator.RenderFrames | src/audio/Generators/WaveformGenerator.cpp:91-117 | frame f is rendered at sample start + f from the voices the earlier frames left, and the marks are those of the frames |
| Generator.WaveformGenerator.RenderFrame | src/audio/Generators/WaveformGenerator.cpp:92-116 | one more frame is rendered and its voices advanced |
| Generator.WaveformGenerator.ProcessFrame | src/audio/Generators/WaveformGenerator.cpp:94-116 | every voice ticks once, is marked if its envelope asks for it, and adds its panned sample at f·channels |
| Generator.WaveformGenerator.StepVoice | src/audio/Generators/WaveformGenerator.cpp:95-115 | one voice of the frame ticks, is marked if asked, and adds its contribution |
| Generator.MixVoice | src/audio/Generators/WaveformGenerator.cpp:109-111 | the left sample goes into the frame's first entry, and the right one into its second only with more than one channel |
| Generator.RemoveMarked | src/audio/Generators/WaveformGenerator.cpp:120-129 | the result is the unmarked voices in their original order |
| Sequencing.NoteRule | src/audio/Sequencing/NoteSequence.h:20-27 | Note-On exactly inside the window of a note not playing; Note-Off at every update from the stop time on, whatever the flag; nothing otherwise; only the flag changes, and it is never cleared; an empty window never starts |
| Sequencing.UpdateSequence | src/audio/Sequencing/NoteSequence.h:17-29 | each note is updated by the rule, and the calls are made in note order on the sequence's generator |
| Sequencing.UpdateEventsBound | src/audio/Sequencing/NoteSequence.h:19-28 | at most one call per note, all on the sequence's generator |
| Sequencing.AtMostOneNoteOn | src/audio/Sequencing/NoteSequence.h:20-23 | across any run of updates a note makes at most one Note-On, and none once playing, which stays so |
| Sequencing.EmptyWindowNeverStarts | src/audio/Sequencing/NoteSequence.h:20 | a note whose stop time is not after its play time never makes a Note-On |
| Sequencing.NoteOffRepeats | src/audio/Sequencing/NoteSequence.h:24-27 | once past the stop time, every update repeats the Note-Off and leaves the note as it is |
| Sequencing.SequenceAfterPerNote | src/audio/Sequencing/NoteSequence.h:19-28 | updating a sequence updates each note independently and keeps the generator |
| Sequencing.UpdatePattern | src/audio/Sequencing/Pattern.h:15-20 | every sequence is updated at the same sample, in order |
| Sequencing.StopPattern | src/audio/Sequencing/Pattern.h:22-32 | every playing note gets one Note-Off on its sequence's generator and stops playing |
| Sequencing.StopSequence | src/audio/Sequencing/Pattern.h:25-30 | within one sequence, every playing note gets one Note-Off on the sequence's generator, in list order, and stops playing |
| Sequencing.StopEventsArePlayingNotes | src/audio/Sequencing/Pattern.h:24-31 | a stop makes exactly one Note-Off per playing note, in order, and no other call |
| Sequencing.StopSilences | src/audio/Sequencing/Pattern.h:24-29 | after a stop no note plays, notes not playing are untouched, and only the flag changes |
| Sequencing.NothingPlayingNothingSent | src/audio/Sequencing/Pattern.h:26-29 | with nothing playing, a stop sends nothing |
| Sequencing.StopIdempotent | src/audio/Sequencing/Pattern.h:24-29 | a second stop of a sequence sends nothing and changes nothing |
| Sequencing.PatternStopIdempotent | src/audio/Sequencing/Pattern.h:22-32 | after a pattern stop no note plays, and a second stop sends nothing and changes nothing |
| Sequencing.PausePattern | src/audio/Sequencing/Pattern.h:34-43 | a pause makes the same Note-Offs as a stop but changes no flag |
| Transport.StopPatternsIdempotent | src/audio/Sequencing/SequencerState.h:45-48 | after stopping every pattern no note plays, and stopping again sends nothing and changes nothing |
| Transport.AdvancedClocks | src/audio/AudioBackend.cpp:31-35 | one callback moves the processed clock by its length always, and the song position by it exactly when playing; while stopped nothing is sent |
| Transport.SequencerState.constructor | src/audio/Sequencing/SequencerState.h:74-82 | both clocks at 0, stopped, no patterns and no callbacks |
| Transport.SequencerState.MoveForward | src/audio/Sequencing/SequencerState.h:17-24 | while stopped nothing changes and nothing is sent; while playing, the position moves by `samples` and every pattern is updated at the new position, in order |
| Transport.SequencerState.Processed | src/audio/Sequencing/SequencerState.h:26-28 | the processed clock moves by `samples`, and nothing else changes |
| Transport.SequencerState.Reset | src/audio/Sequencing/SequencerState.h:38-49 | position 0, stopped, the reset callbacks returned to run in order, every pattern stopped with its Note-Offs; the processed clock is kept |
| Transport.SequencerState.StopAll | src/audio/Sequencing/SequencerState.h:46-48 | every pattern is stopped in order |
| Transport.SequencerState.Start | src/audio/Sequencing/SequencerState.h:51-53 | the transport plays, and nothing else changes |
| Transport.SequencerState.Pause | src/audio/Sequencing/SequencerState.h:55-60 | the transport stops and every playing note gets a Note-Off; the position and the flags are kept |
| Transport.SequencerState.CurrentSlice | src/audio/Sequencing/SequencerState.h:66-68 | slice < SLICE_SIZE and bucket × SLICE_SIZE + slice = position |
| Transport.SequencerState.CurrentBucket | src/audio/Sequencing/SequencerState.h:70-72 | the number of whole slices before the position |
| Midi.ClassifyByNibble | src/audio/midi/MidiManager.cpp:10-30 | dropped exactly without a manager, when short, or for a non-channel status; a Note On of any channel goes to the note callbacks with its data bytes; every other channel message, Note Off included, goes only to the general callbacks |
| Midi.NoteOffIsGeneral | src/audio/midi/MidiManager.cpp:21-30 | a MIDI Note Off never reaches the note callbacks |
| Midi.OnlyThreeBytesRead | src/audio/midi/MidiManager.cpp:13-15 | a longer message is classified like its three-byte prefix |
| Midi.Calls | src/audio/midi/MidiManager.cpp:21-30 | the chosen list's callbacks are each invoked once, in registration order, with the same arguments |
| Midi.InputCallback | src/audio/midi/MidiManager.cpp:8-31 | the invocations made are those of the classification |
| Midi.MidiManager.constructor | src/audio/midi/MidiManager.cpp:33-34 | no callbacks, disabled |
| Midi.MidiManager.AddNoteCallback | src/audio/AudioBackend.cpp:82 | the callback is appended to the note callbacks |
| Midi.MidiManager.AddGeneralCallback | src/audio/AudioBackend.cpp:100 | the callback is appended to the general callbacks |
| UiRects.Intersect | src/ui/ui_macros.h:12-20 | x and y are the larger corners, width and height are max(0, nearer edge − corner), never negative |
| UiRects.IntersectCommutes | src/ui/ui_macros.h:12-20 | the argument order does not matter |
| UiRects.IntersectSelf | src/ui/ui_macros.h:12-20 | a rectangle of non-negative extent intersected with itself is itself |
| UiRects.IntersectContains | src/ui/ui_macros.h:13-19 | a point lies in the result exactly when it lies in both rectangles |
| UiRects.IntersectInside | src/ui/ui_macros.h:13-19 | a non-empty result lies inside both rectangles |
| Backend.AfterAll | src/audio/AudioBackend.cpp:20-22 | every generator ends in its own cycle's state, ready for the next sample; generator i reads the shared random stream after the draws of the generators before it |
| Backend.TotalDrawsNext | src/audio/AudioBackend.cpp:20-22 | one more generator adds its own cycle's draws to the count of the generators before it |
| Backend.PanPairsGains | src/audio/AudioBackend.cpp:24-29 | the master pan scales each left entry by the left gain and each right entry by the right gain, and leaves the rest of the buffer alone |
| Backend.DeliverAllRoutes | src/audio/AudioGenerator.h:34-42 | each generator receives exactly the calls addressed to it, in order, at the end of its write slot; its read slot is untouched |
| Backend.ResetCallbacksClear | src/audio/AudioBackend.cpp:76-80 | the registered reset callback empties every generator's voices and keeps its queues and settings |
| Backend.RouteNoteEffect | src/audio/AudioBackend.cpp:83-94 | with no selection nothing changes; otherwise a positive velocity queues `{note, velocity}` as a Note-On, and any other a `{note, 0}` Note-Off, on the selected generator only |
| Backend.MidiMessageEffect | src/audio/AudioBackend.cpp:82-102 | with the registered callbacks, only a Note On message reaches a generator, routed like the note callback; every other message changes nothing |
| Backend.ZeroScratch | src/audio/AudioBackend.cpp:17-18 | the first `floats` entries become 0, and the rest are kept |
| Backend.ApplyPan | src/audio/AudioBackend.cpp:24-29 | every stereo pair of the block is panned in place |
| Backend.ScaleOut | src/audio/AudioBackend.cpp:38-41 | out[i] = buffer[i] × volume for i < floats, and the rest of `out` is kept |
| Backend.NewTransport | src/audio/AudioBackend.cpp:74-80 | the transport is reset, then given the voice-clearing callback |
| Backend.NewMidiManager | src/audio/AudioBackend.cpp:82-102 | the manager gets the routing note callback and the logging general callback |
| Backend.AudioBackend.constructor | src/audio/AudioBackend.cpp:47-103 | one fresh waveform generator, the transport reset with its callback, the MIDI callbacks, volume 1, pan 0, nothing selected |
| Backend.AudioBackend.ChangeGenerator | src/audio/AudioBackend.cpp:109-114 | an index outside the generator list is ignored, any other is selected, so the selection stays −1 or valid |
| Backend.AudioBackend.DataCallback | src/audio/AudioBackend.cpp:13-42 | the order of the callback: zero, run all generators from the processed clock, pan, move the transport and deliver its calls, advance the processed clock, and scale into `out`; it returns the number of `rand()` calls all generators made |
| Backend.AudioBackend.RenderBlock | src/audio/AudioBackend.cpp:17-29 | the scratch buffer is zeroed, mixed by every generator and panned; the returned count is all generators' draws |
| Backend.AudioBackend.PanBlock | src/audio/AudioBackend.cpp:24-29 | the master pan is applied to the block, and the generators are unchanged |
| Backend.AudioBackend.MixBlock | src/audio/AudioBackend.cpp:17-22 | the scratch buffer is zeroed and then mixed by every generator; the returned count is all generators' draws |
| Backend.AudioBackend.RunGenerators | src/audio/AudioBackend.cpp:20-22 | every generator runs its cycle from the processed clock, in order, each one continuing the shared random stream; the returned count is all generators' draws |
| Backend.AudioBackend.FinishBlock | src/audio/AudioBackend.cpp:31-41 | the transport advances, then the output receives the buffer scaled by the volume |
| Backend.AudioBackend.AdvanceTransport | src/audio/AudioBackend.cpp:31-35 | the transport moves if playing, its calls are delivered, and the processed clock always moves |
| Backend.AudioBackend.MoveTransport | src/audio/AudioBackend.cpp:31-33 | `move_forward` only while playing, with its calls delivered in order |
| Backend.AudioBackend.ProcessedBlock | src/audio/AudioBackend.cpp:35 | the processed clock moves by the frame count, and the generators are unchanged |
| Backend.AudioBackend.Send | src/audio/Sequencing/NoteSequence.h:22-26 | one call reaches the generator it names |
| Backend.AudioBackend.Deliver | src/audio/Sequencing/SequencerState.h:20-22 | the pattern calls reach their generators, in order |
| Backend.AudioBackend.OnMidiNote | src/audio/AudioBackend.cpp:82-98 | the note callback changes the generators as `RouteNote` says |
| Backend.AudioBackend.MidiInput | src/audio/midi/MidiManager.cpp:8-31 | a MIDI message changes the generators as its classified callback invocations do |
| Backend.AudioBackend.RunCalls | src/audio/midi/MidiManager.cpp:21-30 | the invocations are carried out in order |
| Backend.AudioBackend.ClearAllVoices | src/audio/AudioBackend.cpp:76-80 | every generator's voice list is emptied, and nothing else changes |
| Backend.AudioBackend.ResetTransport | src/audio/Sequencing/SequencerState.h:38-49 | a reset inside the engine: position 0, stopped, callbacks run in order, then the Note-Offs of the stopped patterns delivered; the processed clock is kept |
| Backend.AudioBackend.AfterReset | src/audio/Sequencing/SequencerState.h:41-48 | the reset callbacks run, then the Note-Offs are delivered |
| Backend.AudioBackend.RunCallbacks | src/audio/Sequencing/SequencerState.h:41-43 | the reset callbacks run in registration order |
| Backend.AudioBackend.PauseTransport | src/audio/Sequencing/SequencerState.h:55-60 | a pause inside the engine: stopped, and the Note-Offs of the playing notes delivered |
| Backend.ProcessAll | src/audio/AudioBackend.cpp:20-22 | the loop over distinct generators: each runs its cycle into the shared buffer, in order, and generator i continues the shared random stream after the draws of the generators before it; the returned count is `TotalDraws` of the old states |
| Backend.ProcessNext | src/audio/AudioBackend.cpp:21 | one more generator runs its cycle into the buffer, reading the random stream where the earlier generators stopped |

## Left out

- Concurrency is left out: the atomic `write_buffer_index` exchange and loads, and
  the race between the MIDI thread, the UI and the audio callback. Every operation
  runs to completion, one after another.
- Device and port I/O is left out:
  - the miniaudio device configuration, start and destructor;
  - the single-instance guard and its exceptions;
  - RtMidi port enumeration, so `enabled` stays false and `IsEnabled` is not
    modelled.
- All console output is left out: the general MIDI callback logs and does nothing
  else, and the "generator is null" message is not modelled.
- `init_noise` and `rand()` are parameters, not code. The noise table is an arbitrary
  sequence of NOISE_SAMPLES reals. `rand() / RAND_MAX` is one stream of reals shared
  by all generators. In a callback, each generator reads the stream after the calls
  of the generators before it. Every callback reads the stream from position 0 and
  returns how many values it used. Carrying that position from one callback to the
  next, across MIDI and UI threads, is left to the caller.
- `sinf`, `asinf` and `std::pow` are uninterpreted functions. The Sine and Triangle
  waveforms, note frequencies and the detune ratio are therefore stated only
  structurally.
- Floating point is modelled over `real`: no rounding, no single-precision
  constants. `M_PI` is its decimal expansion.
- The `uint64_t` sample clocks, the `int` note arithmetic and the `int` edge sums of
  `intersect_rects` (`x + w`, `y + h`) are unbounded, so wrap-around and signed
  overflow are not modelled.
- The simple getters are not separate operations. `get_current_sample`,
  `get_current_process_sample` and `is_playing_state` read fields that the model
  exposes directly.
- Pattern ids, `id_counter`, names, the pattern editing done by the UI, and the rest
  of `ui_macros.h` (layout macros, formatting, popups) are not part of this model.
- A sequence's generator address is a generator index. A call addressed to a
  generator that does not exist is dropped, where the code would dereference an
  invalid address.
- `to_remove` holds voice addresses in the code. The model marks voices by
  position, which is the same thing because the vector does not change size during
  the frame loop.
- `Voice.detune` is never assigned by the code and stays 0.
- The data callback reads the processed-sample clock once per generator; nothing
  changes it in between, so the model reads it once.
- Envelope.Process: requires the sample not to precede the voice's reference time
  (and, in Decay, the end of its attack). The code has no such check; an earlier
  sample would wrap the unsigned subtraction. The generator keeps this condition as
  an invariant (`AllTimely`), because it is only ever asked for later samples.
- GeneratorSpec.NewVoice: requires non-negative attack, decay and release times,
  since a negative float cast to `uint64_t` is undefined. Its frequency is stated
  through the uninterpreted `pow`, so no numeric pitch follows from it.
- Generator.WaveformGenerator.Process: requires at least one channel and a buffer
  that holds `buffer_size` frames. The code does not check either and would write
  out of bounds.
- Backend.AudioBackend.DataCallback: requires at most BUFFER_SIZE frames and an
  output of at least 2 × frames floats. The code writes past its scratch buffer for
  a longer callback.
- Piano.NoteFrequency: states only that A4 is 440 Hz, because `pow` is
  uninterpreted.
- AudioMath.WaveformShapes: says nothing about Sine and Triangle beyond their
  definition through the uninterpreted trigonometry.
