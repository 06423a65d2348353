/** The waveform generator (AudioGenerator.h, WaveformGenerator.h/.cpp): a bank of
    voices fed by two double-buffered note queues and rendered additively into an
    interleaved float buffer once per audio cycle. */
module Generator {
  import opened Definitions
  import opened AudioMath
  import opened Piano
  import opened Envelope
  import opened GeneratorSpec

  /** A pair of note queues indexed by 0 and 1: one is written by `NoteOn`/`NoteOff`
      while the other is drained by `Process`. */
  datatype Queues = Queues(first: seq<Note>, second: seq<Note>)

  function Get(q: Queues, i: int): seq<Note>
  {
    if i == 0 then q.first else q.second
  }

  /** Appending a note to queue `i` leaves the other queue alone. */
  function Push(q: Queues, i: int, n: Note): (r: Queues)
    requires i == 0 || i == 1
    ensures Get(r, i) == Get(q, i) + [n]
    ensures Get(r, 1 - i) == Get(q, 1 - i)
  {
    if i == 0 then q.(first := q.first + [n]) else q.(second := q.second + [n])
  }

  /** Emptying queue `i` leaves the other queue alone. */
  function Clear(q: Queues, i: int): (r: Queues)
    requires i == 0 || i == 1
    ensures Get(r, i) == []
    ensures Get(r, 1 - i) == Get(q, 1 - i)
  {
    if i == 0 then q.(first := []) else q.(second := [])
  }

  /** Everything about a generator that `Process`, `NoteOn` and `NoteOff` read or
      write, as a value. */
  datatype GenState = GenState(
    voices: seq<Voice>,
    scheduledOn: Queues,
    scheduledOff: Queues,
    writeIndex: int,
    settings: GeneratorSpec.Settings,
    voicing: GeneratorSpec.Voicing)

  /** What `Process` at sample `start` needs of the state. */
  predicate ReadyAt(st: GenState, start: nat)
  {
    0 <= st.writeIndex < 2 && ValidSettings(st.settings) && AllTimely(st.voices, start)
  }

  /** The voices the frame loop starts from: the old ones after the drain of the slot
      being read, none of them marked. `from` is the number of `rand()` calls made
      before this cycle. */
  function Entering(st: GenState, start: nat, ext: Externals, from: nat): (p: Playing)
    requires ReadyAt(st, start)
    ensures Matched(p) && AllTimely(p.voices, start)
  {
    var r := st.writeIndex;
    DrainedTimely(st.voices, Get(st.scheduledOn, r), Get(st.scheduledOff, r), start, st.settings, ext, from);
    Unmarked(Drained(st.voices, Get(st.scheduledOn, r), Get(st.scheduledOff, r), start, st.settings, ext, from))
  }

  /** The buffer after one `Process` call of `n` frames from sample `start`. */
  function CycleMix(st: GenState, buf: seq<real>, channels: nat, n: nat, start: nat, ext: Externals, from: nat)
    : (r: seq<real>)
    requires ReadyAt(st, start) && ValidExternals(ext) && 1 <= channels && FrameOffset(n, channels) <= |buf|
    ensures |r| == |buf|
  {
    MixFrames(buf, CycleOuts(Entering(st, start, ext, from), n, start, st.voicing, ext), channels)
  }

  /** The state after one `Process` call: the slots are swapped, the slot that was read
      is empty in both queues, and the voices are those of the cycle that were not
      marked for removal. */
  function AfterCycle(st: GenState, n: nat, start: nat, ext: Externals, from: nat): (r: GenState)
    requires ReadyAt(st, start)
    ensures ReadyAt(r, start + n)
    ensures r.writeIndex == 1 - st.writeIndex && r.settings == st.settings && r.voicing == st.voicing
    ensures Get(r.scheduledOn, st.writeIndex) == [] && Get(r.scheduledOff, st.writeIndex) == []
    ensures Get(r.scheduledOn, r.writeIndex) == Get(st.scheduledOn, r.writeIndex)
    ensures Get(r.scheduledOff, r.writeIndex) == Get(st.scheduledOff, r.writeIndex)
  {
    var run := RunVoices(Entering(st, start, ext, from), n, start);
    SurvivorsTimely(run.voices, run.killed, start + n);
    GenState(Survivors(run.voices, run.killed),
             Clear(st.scheduledOn, st.writeIndex), Clear(st.scheduledOff, st.writeIndex),
             1 - st.writeIndex, st.settings, st.voicing)
  }

  /** The `rand()` calls one `Process` makes: one per unison voice of every Note-On it
      drains, and only with phase randomisation on. */
  function CycleDraws(st: GenState): nat
  {
    if st.settings.phaseRandomization > 0.0
    then |Get(st.scheduledOn, st.writeIndex)| * UnisonCount(st.settings.unison)
    else 0
  }

  /** A cycle that starts at stream position `from` reads the random stream only at
      its `CycleDraws` draws `from ..`: two externals that agree there, and on
      everything else, give the same voices, the same new state and the same buffer. */
  lemma CycleReadsOwnDraws(st: GenState, buf: seq<real>, channels: nat, n: nat, start: nat,
                           e1: Externals, e2: Externals, from: nat)
    requires ReadyAt(st, start) && ValidExternals(e1) && 1 <= channels && FrameOffset(n, channels) <= |buf|
    requires e1.trig == e2.trig && e1.pow2 == e2.pow2 && e1.noise == e2.noise
    requires forall i: nat :: from <= i < from + CycleDraws(st) ==> e1.random(i) == e2.random(i)
    ensures Entering(st, start, e1, from) == Entering(st, start, e2, from)
    ensures AfterCycle(st, n, start, e1, from) == AfterCycle(st, n, start, e2, from)
    ensures CycleMix(st, buf, channels, n, start, e1, from) == CycleMix(st, buf, channels, n, start, e2, from)
  {
    SpawnedReadsOwnDraws(Get(st.scheduledOn, st.writeIndex), start, st.settings, e1, e2, from);
    var p := Entering(st, start, e1, from);
    assert p == Entering(st, start, e2, from);
    CycleOutsReadTables(p, n, start, st.voicing, e1, e2);
  }

  /** A voice whose note number is among the Note-Offs drained at the start of a cycle
      is released again at the cycle's first sample, so when its release time is at
      least the cycle length it is still in Release at the end of the cycle and is not
      removed. Together with the repeated Note-Off of the sequencer this keeps a voice
      alive for as long as the transport plays past the note's stop time. */
  lemma RepeatedNoteOffKeepsVoice(st: GenState, n: nat, start: nat, ext: Externals, from: nat, j: nat)
    requires ReadyAt(st, start) && j < |st.voices|
    requires st.voices[j].id in NoteNumbers(Get(st.scheduledOff, st.writeIndex))
    requires n <= st.voices[j].envelope.releaseTime
    ensures var run := RunVoices(Entering(st, start, ext, from), n, start);
      !run.killed[j] && run.voices[j].envelope.state == Release && run.voices[j].creationTime == start
  {
    var r := st.writeIndex;
    var all := st.voices + Spawned(Get(st.scheduledOn, r), start, st.settings, ext, from);
    assert all[j] == st.voices[j];
    ReleaseAllMatches(all, Get(st.scheduledOff, r), start, j);
    var p := Entering(st, start, ext, from);
    assert p.voices[j] == ReleaseVoice(st.voices[j], start);
    KilledExactly(p, n, start, j);
    VoiceKept(p, n, start, j);
  }

  class WaveformGenerator {
    var name: string
    var volume: real
    var pan: real
    /** `voices`, the currently sounding voices in vector order. */
    var voices: seq<Voice>
    var scheduledOn: Queues
    var scheduledOff: Queues
    /** `write_buffer_index`: the queue pair slot `NoteOn`/`NoteOff` append to. */
    var writeIndex: int
    var waveform: Waveform
    var attack: real
    var decay: real
    var sustain: real
    var release: real
    var unison: int
    var phaseRandomization: real

    /** The slot index is 0 or 1, and the envelope durations can be converted to
        sample counts. */
    ghost predicate Valid()
      reads this
    {
      0 <= writeIndex < 2 && attack >= 0.0 && decay >= 0.0 && release >= 0.0
    }

    /** The parameters a Note-On is rendered with. */
    function Settings(): (s: GeneratorSpec.Settings)
      reads this
      ensures s.unison == unison && s.phaseRandomization == phaseRandomization
      ensures Valid() ==> ValidSettings(s)
    {
      GeneratorSpec.Settings(attack, decay, sustain, release, unison, phaseRandomization)
    }

    /** The generator-level values the frame loop reads. */
    function Voicing(): (m: GeneratorSpec.Voicing)
      reads this
      ensures m.waveform == waveform && m.volume == volume && m.pan == pan
    {
      GeneratorSpec.Voicing(waveform, volume, pan)
    }

    /** The generator as a value. */
    function State(): (st: GenState)
      reads this
      ensures Valid() <==> 0 <= st.writeIndex < 2 && ValidSettings(st.settings)
    {
      GenState(voices, scheduledOn, scheduledOff, writeIndex, Settings(), Voicing())
    }

    /** A new generator: a sine with a one-second attack, 0.1 s decay, 0.7 sustain and
        one-second release, one unison voice, no phase randomisation, half volume,
        centred, no voices and empty queues. */
    constructor()
      ensures Valid()
      ensures name == "Waveform Generator" && volume == 0.5 && pan == 0.0
      ensures waveform == Sine && attack == 1.0 && decay == 0.1 && sustain == 0.7 && release == 1.0
      ensures unison == 1 && phaseRandomization == 0.0
      ensures voices == [] && writeIndex == 0
      ensures scheduledOn == Queues([], []) && scheduledOff == Queues([], [])
    {
      name := "Waveform Generator";
      volume := 0.5;
      pan := 0.0;
      voices := [];
      scheduledOn := Queues([], []);
      scheduledOff := Queues([], []);
      writeIndex := 0;
      waveform := Sine;
      attack := 1.0;
      decay := 0.1;
      sustain := 0.7;
      release := 1.0;
      unison := 1;
      phaseRandomization := 0.0;
    }

    /** `NoteOn`: the note is appended to the Note-On queue being written. */
    method NoteOn(note: Note)
      requires 0 <= writeIndex < 2
      modifies this`scheduledOn
      ensures Get(scheduledOn, writeIndex) == Get(old(scheduledOn), writeIndex) + [note]
      ensures Get(scheduledOn, 1 - writeIndex) == Get(old(scheduledOn), 1 - writeIndex)
      ensures scheduledOn == Push(old(scheduledOn), writeIndex, note)
    {
      var bufferIndex := writeIndex;
      scheduledOn := Push(scheduledOn, bufferIndex, note);
    }

    /** `NoteOff`: the note is appended to the Note-Off queue being written. */
    method NoteOff(note: Note)
      requires 0 <= writeIndex < 2
      modifies this`scheduledOff
      ensures Get(scheduledOff, writeIndex) == Get(old(scheduledOff), writeIndex) + [note]
      ensures Get(scheduledOff, 1 - writeIndex) == Get(old(scheduledOff), 1 - writeIndex)
      ensures scheduledOff == Push(old(scheduledOff), writeIndex, note)
    {
      var bufferIndex := writeIndex;
      scheduledOff := Push(scheduledOff, bufferIndex, note);
    }

    /** `ProcessScheduledNoteOns`: every queued Note-On, in queue order, appends its
        unison voices; the queue is then emptied. `from` is the number of `rand()` calls
        made before the drain and `next` the number after it: the drain's own calls are
        `ext.random(from)`, `ext.random(from + 1)`, and so on. */
    method ProcessScheduledNoteOns(sampleIndex: nat, readIdx: int, ext: Externals, from: nat)
      returns (next: nat)
      requires Valid() && 0 <= readIdx < 2
      modifies this`voices, this`scheduledOn
      ensures voices == old(voices) + Spawned(Get(old(scheduledOn), readIdx), sampleIndex, Settings(), ext, from)
      ensures scheduledOn == Clear(old(scheduledOn), readIdx)
      ensures next == from + (if phaseRandomization > 0.0
                              then |Get(old(scheduledOn), readIdx)| * UnisonCount(unison) else 0)
    {
      var scheduled := Get(scheduledOn, readIdx);
      next := from;
      if |scheduled| > 0 {
        next := SpawnQueue(scheduled, sampleIndex, ext, from);
        scheduledOn := Clear(scheduledOn, readIdx);
      } else {
        assert Get(scheduledOn, readIdx) == [];
        assert Clear(scheduledOn, readIdx) == scheduledOn by {
          if readIdx == 0 { assert scheduledOn.first == []; } else { assert scheduledOn.second == []; }
        }
      }
    }

    /** The loop of `ProcessScheduledNoteOns` over the Note-Ons `scheduled`. */
    method SpawnQueue(scheduled: seq<Note>, sampleIndex: nat, ext: Externals, from: nat) returns (next: nat)
      requires Valid()
      modifies this`voices
      ensures voices == old(voices) + Spawned(scheduled, sampleIndex, Settings(), ext, from)
      ensures next == from + (if phaseRandomization > 0.0 then |scheduled| * UnisonCount(unison) else 0)
    {
      var s := Settings();
      ghost var u := UnisonCount(unison);
      next := from;
      ghost var first: nat := from;
      var k := 0;
      while k < |scheduled|
        invariant 0 <= k <= |scheduled| && first == from + k * u
        invariant voices == old(voices) + Spawned(scheduled[..k], sampleIndex, s, ext, from)
        invariant next == (if phaseRandomization > 0.0 then first else from)
      {
        next := SpawnUnison(scheduled[k], sampleIndex, s, ext, first, next);
        SpawnedNext(scheduled, k, sampleIndex, s, ext, from, first);
        first := first + u;
        k := k + 1;
      }
      assert scheduled[..k] == scheduled;
    }

    /** The unison voices of one drained Note-On, appended in unison order. `draws`
        counts the `rand()` calls made so far in the drain; a call is made per voice
        only when phase randomisation is on. */
    method SpawnUnison(note: Note, sampleIndex: nat, s: GeneratorSpec.Settings, ext: Externals, ghost first: nat,
                       draws: nat)
      returns (draws': nat)
      requires Valid() && s == Settings()
      requires phaseRandomization > 0.0 ==> draws == first
      modifies this`voices
      ensures voices == old(voices) + Unison(note, sampleIndex, s, ext, first)
      ensures phaseRandomization > 0.0 ==> draws' == first + UnisonCount(unison)
      ensures phaseRandomization <= 0.0 ==> draws' == draws
    {
      ghost var before := voices;
      draws' := draws;
      var i := 0;
      while i < unison
        invariant 0 <= i && (unison > 0 ==> i <= unison) && (unison <= 0 ==> i == 0)
        invariant voices == before + Unison(note, sampleIndex, s, ext, first)[..i]
        invariant phaseRandomization > 0.0 ==> draws' == first + i
        invariant phaseRandomization <= 0.0 ==> draws' == draws
      {
        var draw := 0.0;
        if phaseRandomization > 0.0 {
          draw := ext.random(draws');
          draws' := draws' + 1;
        }
        var voice := NewVoice(note, i, sampleIndex, s, ext, draw);
        UnisonAt(note, sampleIndex, s, ext, first, i);
        DrawUnused(note, i, sampleIndex, s, ext, draw, ext.random(first + i));
        voices := voices + [voice];
        assert Unison(note, sampleIndex, s, ext, first)[..i + 1]
          == Unison(note, sampleIndex, s, ext, first)[..i] + [voice];
        i := i + 1;
      }
      assert Unison(note, sampleIndex, s, ext, first)[..i] == Unison(note, sampleIndex, s, ext, first);
    }

    /** `ProcessScheduledNoteOffs`: every queued Note-Off, in queue order, releases the
        voices with its note number; the queue is then emptied. */
    method ProcessScheduledNoteOffs(sampleIndex: nat, readIdx: int)
      requires Valid() && 0 <= readIdx < 2
      modifies this`voices, this`scheduledOff
      ensures voices == ReleaseAll(old(voices), Get(old(scheduledOff), readIdx), sampleIndex)
      ensures scheduledOff == Clear(old(scheduledOff), readIdx)
    {
      var scheduled := Get(scheduledOff, readIdx);
      if |scheduled| > 0 {
        var k := 0;
        while k < |scheduled|
          invariant 0 <= k <= |scheduled|
          invariant voices == ReleaseAll(old(voices), scheduled[..k], sampleIndex)
          invariant scheduledOff == old(scheduledOff)
        {
          var note := scheduled[k].noteNumber;
          ghost var before := voices;
          var j := 0;
          while j < |voices|
            invariant 0 <= j <= |voices| == |before|
            invariant scheduledOff == old(scheduledOff)
            invariant forall i :: 0 <= i < j ==> voices[i] == ReleaseMatching(before, note, sampleIndex)[i]
            invariant forall i :: j <= i < |voices| ==> voices[i] == before[i]
          {
            var voice := voices[j];
            if voice.id == note {
              var env := voice.envelope.(state := Release);
              voice := voice.(envelope := env, creationTime := sampleIndex);
              voice := voice.(envelope := EnterRelease(voice.envelope));
              voices := voices[j := voice];
            }
            j := j + 1;
          }
          assert voices == ReleaseMatching(before, note, sampleIndex);
          assert scheduled[..k + 1][..k] == scheduled[..k];
          k := k + 1;
        }
        assert scheduled[..k] == scheduled;
        scheduledOff := Clear(scheduledOff, readIdx);
      } else {
        assert Clear(scheduledOff, readIdx) == scheduledOff by {
          if readIdx == 0 { assert scheduledOff.first == []; } else { assert scheduledOff.second == []; }
        }
      }
    }

    /** `Process`: swap the queue slots, drain the Note-Ons and then the Note-Offs
        queued in the slot that was being written, then render the cycle. `from` is the number of
        `rand()` calls made before it and `next` the number after it. */
    method Process(buffer: array<real>, channels: nat, bufferSize: nat, currentSample: nat, ext: Externals,
                   from: nat)
      returns (next: nat)
      requires Valid() && ValidExternals(ext) && AllTimely(voices, currentSample)
      requires 1 <= channels && FrameOffset(bufferSize, channels) <= buffer.Length
      modifies this`voices, this`scheduledOn, this`scheduledOff, this`writeIndex, buffer
      ensures Valid() && AllTimely(voices, currentSample + bufferSize)
      ensures State() == AfterCycle(old(State()), bufferSize, currentSample, ext, from)
      ensures buffer[..] == CycleMix(old(State()), old(buffer[..]), channels, bufferSize, currentSample, ext, from)
      ensures next == from + CycleDraws(old(State()))
    {
      ghost var st0 := State();
      ghost var p := Entering(st0, currentSample, ext, from);
      next := SwapAndDrain(currentSample, ext, from);
      RenderCycle(buffer, channels, bufferSize, currentSample, ext);
      ghost var run := RunVoices(p, bufferSize, currentSample);
      assert State() == GenState(voices, scheduledOn, scheduledOff, writeIndex, st0.settings, st0.voicing);
    }

    /** The first part of `Process`: the slots are swapped and the slot that was being
        written is drained, Note-Ons first. */
    method SwapAndDrain(currentSample: nat, ext: Externals, from: nat) returns (next: nat)
      requires Valid() && AllTimely(voices, currentSample)
      modifies this`voices, this`scheduledOn, this`scheduledOff, this`writeIndex
      ensures Valid() && writeIndex == 1 - old(writeIndex)
      ensures scheduledOn == Clear(old(scheduledOn), old(writeIndex))
      ensures scheduledOff == Clear(old(scheduledOff), old(writeIndex))
      ensures Unmarked(voices) == Entering(old(State()), currentSample, ext, from)
      ensures AllTimely(voices, currentSample)
      ensures next == from + CycleDraws(old(State()))
    {
      var readIdx := writeIndex;
      writeIndex := 1 - writeIndex;
      next := ProcessScheduledNoteOns(currentSample, readIdx, ext, from);
      ProcessScheduledNoteOffs(currentSample, readIdx);
      DrainedTimely(old(voices), Get(old(scheduledOn), readIdx), Get(old(scheduledOff), readIdx),
                    currentSample, Settings(), ext, from);
    }

    /** The rendering part of `Process`: `bufferSize` frames from sample
        `currentSample` are accumulated into `buffer`, and the voices marked during the
        cycle are removed at its end. */
    method RenderCycle(buffer: array<real>, channels: nat, bufferSize: nat, currentSample: nat, ext: Externals)
      requires ValidExternals(ext) && AllTimely(voices, currentSample)
      requires 1 <= channels && FrameOffset(bufferSize, channels) <= buffer.Length
      modifies this`voices, buffer
      ensures (var run := RunVoices(Unmarked(old(voices)), bufferSize, currentSample);
               voices == Survivors(run.voices, run.killed))
      ensures buffer[..] == MixFrames(old(buffer[..]), CycleOuts(Unmarked(old(voices)), bufferSize, currentSample, Voicing(), ext), channels)
      ensures AllTimely(voices, currentSample + bufferSize)
    {
      var m := Voicing();
      ghost var p0 := Unmarked(voices);
      var toRemove := RenderFrames(buffer, channels, bufferSize, currentSample, m, ext);
      voices := RemoveMarked(voices, toRemove);
      SurvivorsTimely(RunVoices(p0, bufferSize, currentSample).voices, toRemove, currentSample + bufferSize);
    }

    /** The frame loop of `Process`: frame `f` is rendered at sample `currentSample + f`
        into the entries from `f * channels`, and the voices whose envelope asks for
        removal are marked. */
    method RenderFrames(buffer: array<real>, channels: nat, bufferSize: nat, currentSample: nat, m: Voicing,
                        ext: Externals)
      returns (toRemove: seq<bool>)
      requires m == Voicing() && ValidExternals(ext) && AllTimely(voices, currentSample)
      requires 1 <= channels && FrameOffset(bufferSize, channels) <= buffer.Length
      modifies this`voices, buffer
      ensures Playing(voices, toRemove) == RunVoices(Unmarked(old(voices)), bufferSize, currentSample)
      ensures buffer[..] == MixFrames(old(buffer[..]), CycleOuts(Unmarked(old(voices)), bufferSize, currentSample, m, ext), channels)
    {
      ghost var p0 := Unmarked(voices);
      ghost var outs := CycleOuts(p0, bufferSize, currentSample, m, ext);
      ghost var buf0 := buffer[..];
      toRemove := seq(|voices|, _ => false);

      var f := 0;
      while f < bufferSize
        invariant 0 <= f <= bufferSize
        invariant FramesRendered(buffer, channels, currentSample, f, p0, outs, buf0, toRemove)
      {
        FrameOffsetIncreasing(f, bufferSize, channels);
        toRemove := RenderFrame(buffer, channels, bufferSize, currentSample, m, ext, f, toRemove, p0, outs, buf0);
        f := f + 1;
      }
      assert outs[..f] == outs;
    }

    /** The frame loop's invariant: the first `f` frames are rendered and the voices have
        run through them. */
    ghost predicate FramesRendered(buffer: array<real>, channels: nat, currentSample: nat, f: nat, p0: Playing,
                                   outs: seq<seq<Stereo>>, buf0: seq<real>, toRemove: seq<bool>)
      reads this, buffer
    {
      1 <= channels && f <= |outs| && FrameOffset(f, channels) <= |buf0| == buffer.Length
      && Matched(p0) && AllTimely(p0.voices, currentSample)
      && Playing(voices, toRemove) == RunVoices(p0, f, currentSample)
      && buffer[..] == MixFrames(buf0, outs[..f], channels)
    }

    /** One turn of the frame loop: frame `f` rendered at sample `currentSample + f`. */
    method RenderFrame(buffer: array<real>, channels: nat, bufferSize: nat, currentSample: nat, m: Voicing,
                       ext: Externals, f: nat, toRemove: seq<bool>,
                       ghost p0: Playing, ghost outs: seq<seq<Stereo>>, ghost buf0: seq<real>)
      returns (toRemove': seq<bool>)
      requires m == Voicing() && ValidExternals(ext) && f < bufferSize
      requires FrameOffset(f, channels) + channels <= |buf0|
      requires Matched(p0) && AllTimely(p0.voices, currentSample)
      requires outs == CycleOuts(p0, bufferSize, currentSample, m, ext)
      requires FramesRendered(buffer, channels, currentSample, f, p0, outs, buf0, toRemove)
      modifies this`voices, buffer
      ensures FramesRendered(buffer, channels, currentSample, f + 1, p0, outs, buf0, toRemove')
    {
      var sampleIndex := currentSample + f;
      ghost var run := Playing(voices, toRemove);
      ghost var mixed := buffer[..];
      toRemove' := ProcessFrame(buffer, channels, f, sampleIndex, m, ext, toRemove);
      RunVoicesNext(p0, f, currentSample, sampleIndex, run, Playing(voices, toRemove'));
      CycleOutsAt(p0, bufferSize, currentSample, m, ext, f, sampleIndex, run);
      MixFramesNext(buf0, outs, channels, f, mixed, FrameOuts(run.voices, sampleIndex, m, ext), buffer[..]);
    }

    /** One pass of the frame loop's inner loop: frame `f`, at sample `sampleIndex`,
        advances every voice, accumulates its contribution at `f * channels` and marks
        the voices whose envelope asks for removal. */
    method ProcessFrame(buffer: array<real>, channels: nat, f: nat, sampleIndex: nat, m: Voicing, ext: Externals,
                        marked: seq<bool>)
      returns (marked': seq<bool>)
      requires m == Voicing() && ValidExternals(ext) && |marked| == |voices| && AllTimely(voices, sampleIndex)
      requires 1 <= channels && FrameOffset(f, channels) + channels <= buffer.Length
      modifies this`voices, buffer
      ensures Playing(voices, marked') == StepVoices(Playing(old(voices), marked), sampleIndex)
      ensures buffer[..] == MixOuts(old(buffer[..]), FrameOuts(old(voices), sampleIndex, m, ext),
                                    FrameOffset(f, channels), channels)
    {
      ghost var vs0 := voices;
      ghost var buf0 := buffer[..];
      ghost var outs := FrameOuts(vs0, sampleIndex, m, ext);
      FrameOffsetIsProduct(f, channels);
      var idx := f * channels;
      marked' := marked;
      var j := 0;
      while j < |voices|
        invariant VoicesStepped(buffer, idx, channels, sampleIndex, m, ext, j, vs0, marked, marked', buf0)
      {
        marked' := StepVoice(buffer, idx, channels, sampleIndex, m, ext, j, marked', vs0, marked, buf0);
        j := j + 1;
      }
      ghost var next := StepVoices(Playing(vs0, marked), sampleIndex);
      assert voices == next.voices && marked' == next.killed;
      assert outs[..j] == outs;
    }

    /** The inner loop's invariant: the first `j` voices have ticked, been marked if
        their envelope asks for removal, and added their contribution at `idx`; the
        others are as they were. */
    ghost predicate VoicesStepped(buffer: array<real>, idx: nat, channels: nat, sampleIndex: nat, m: Voicing,
                                  ext: Externals, j: nat, vs0: seq<Voice>, marked: seq<bool>, cur: seq<bool>,
                                  buf0: seq<real>)
      reads this, buffer
    {
      ValidExternals(ext) && AllTimely(vs0, sampleIndex) && 1 <= channels
      && idx + channels <= |buf0| == buffer.Length
      && j <= |voices| == |vs0| == |cur| == |marked|
      && (var next := StepVoices(Playing(vs0, marked), sampleIndex);
          (forall k :: 0 <= k < j ==> voices[k] == next.voices[k] && cur[k] == next.killed[k])
          && (forall k :: j <= k < |voices| ==> voices[k] == vs0[k] && cur[k] == marked[k]))
      && buffer[..] == MixOuts(buf0, FrameOuts(vs0, sampleIndex, m, ext)[..j], idx, channels)
    }

    /** One turn of the inner loop: voice `j` ticks, is marked if its envelope asks for
        removal, and adds its contribution at `idx`. */
    method StepVoice(buffer: array<real>, idx: nat, channels: nat, sampleIndex: nat, m: Voicing, ext: Externals,
                     j: nat, cur: seq<bool>, ghost vs0: seq<Voice>, ghost marked: seq<bool>, ghost buf0: seq<real>)
      returns (cur': seq<bool>)
      requires j < |voices|
      requires VoicesStepped(buffer, idx, channels, sampleIndex, m, ext, j, vs0, marked, cur, buf0)
      modifies this`voices, buffer
      ensures VoicesStepped(buffer, idx, channels, sampleIndex, m, ext, j + 1, vs0, marked, cur', buf0)
    {
      var tick := VoiceTick(voices[j], sampleIndex);
      var out := VoiceOut(voices[j], sampleIndex, m, ext);
      StepVoicesAt(Playing(vs0, marked), sampleIndex, j);
      FrameOutsAt(vs0, sampleIndex, m, ext, j);
      ghost var mixed := buffer[..];
      MixVoice(buffer, idx, channels, out);
      MixOutsNext(buf0, FrameOuts(vs0, sampleIndex, m, ext), idx, channels, j, mixed, buffer[..]);
      voices := voices[j := tick.voice];
      cur' := cur;
      if tick.kill {
        cur' := cur'[j := true];
      }
    }
  }

  /** The accumulation of one voice's frame into the interleaved buffer: its left
      sample at `idx` and, when there is a second channel, its right sample next to it. */
  method MixVoice(buffer: array<real>, idx: nat, channels: nat, out: Stereo)
    requires idx < buffer.Length && (channels > 1 ==> idx + 1 < buffer.Length)
    modifies buffer
    ensures buffer[..] == AddOut(old(buffer[..]), out, idx, channels)
  {
    buffer[idx] := buffer[idx] + out.left;
    if channels > 1 {
      buffer[idx + 1] := buffer[idx + 1] + out.right;
    }
  }

  /** `voices.erase(std::remove_if(...))`: the voices not marked, in their original
      order. */
  method RemoveMarked(vs: seq<Voice>, marked: seq<bool>) returns (kept: seq<Voice>)
    requires |marked| == |vs|
    ensures kept == Survivors(vs, marked)
  {
    kept := [];
    var k := 0;
    while k < |vs|
      invariant 0 <= k <= |vs|
      invariant kept == Survivors(vs[..k], marked[..k])
    {
      SurvivorsSnoc(vs, marked, k);
      if !marked[k] {
        kept := kept + [vs[k]];
      }
      k := k + 1;
    }
    assert vs[..k] == vs && marked[..k] == marked;
  }

  /** Deciding one more voice extends the survivors by it exactly when it is unmarked. */
  lemma SurvivorsSnoc(vs: seq<Voice>, marked: seq<bool>, k: nat)
    requires |marked| == |vs| && k < |vs|
    ensures Survivors(vs[..k + 1], marked[..k + 1])
      == Survivors(vs[..k], marked[..k]) + (if marked[k] then [] else [vs[k]])
  {
    assert marked[..k + 1][..k] == marked[..k];
    var idx := SurvivorIndices(marked[..k]);
    assert SurvivorIndices(marked[..k + 1]) == idx + (if marked[k] then [] else [k]);
  }
}
