/** The audio backend (AudioBackend.h/.cpp): the generators, the transport, the MIDI
    manager, the master volume and pan, the selected generator, and the device
    callback that renders one block of interleaved stereo samples. Generator state is
    described through `GenState` values, so that one callback over all generators can
    be stated as a fold of the single-generator cycle. */
module Backend {
  import opened Definitions
  import opened AudioMath
  import opened GeneratorSpec
  import opened Generator
  import opened Sequencing
  import opened Transport
  import opened Midi

  /** Every generator is ready to render from sample `start`. */
  predicate AllReady(sts: seq<GenState>, start: nat)
    ensures AllReady(sts, start) ==> Indexed(sts)
  {
    forall i :: 0 <= i < |sts| ==> ReadyAt(sts[i], start)
  }

  /** Every generator's write index names one of its two slots. */
  predicate Indexed(sts: seq<GenState>)
  {
    forall i :: 0 <= i < |sts| ==> 0 <= sts[i].writeIndex < 2
  }

  /** The states of a list of generators, in order. */
  ghost function StatesOf(gs: seq<WaveformGenerator>): (sts: seq<GenState>)
    reads gs
    ensures |sts| == |gs| && forall i :: 0 <= i < |gs| ==> sts[i] == gs[i].State()
  {
    seq(|gs|, i reads gs requires 0 <= i < |gs| => gs[i].State())
  }

  // ----- The device callback, on values -----

  /** `std::fill` of the scratch buffer: its first `floats` entries become 0. */
  function Zeroed(buf: seq<real>, floats: nat): (r: seq<real>)
    ensures |r| == |buf|
  {
    seq(|buf|, i requires 0 <= i < |buf| => if i < floats then 0.0 else buf[i])
  }

  /** The `rand()` calls the generators `sts` make in one callback, one generator after
      the other; `rand()` is one stream shared by all of them. */
  function TotalDraws(sts: seq<GenState>): nat
    decreases |sts|
  {
    if sts == [] then 0 else TotalDraws(sts[..|sts| - 1]) + CycleDraws(sts[|sts| - 1])
  }

  /** The generator loop of the callback: every generator, in registration order,
      renders `n` stereo frames from the same sample `start` into the buffer. Each one
      continues the shared random stream after the draws of the generators before it. */
  function MixAll(sts: seq<GenState>, buf: seq<real>, n: nat, start: nat, ext: Externals): (r: seq<real>)
    requires AllReady(sts, start) && ValidExternals(ext) && 2 * n <= |buf|
    ensures |r| == |buf|
    decreases |sts|
  {
    if sts == [] then buf
    else
      FrameOffsetIsProduct(n, 2);
      CycleMix(sts[|sts| - 1], MixAll(sts[..|sts| - 1], buf, n, start, ext), 2, n, start, ext, TotalDraws(sts[..|sts| - 1]))
  }

  /** The generator states after the generator loop. */
  function AfterAll(sts: seq<GenState>, n: nat, start: nat, ext: Externals): (r: seq<GenState>)
    requires AllReady(sts, start)
    ensures |r| == |sts| && AllReady(r, start + n)
    ensures forall i :: 0 <= i < |sts| ==> r[i] == AfterCycle(sts[i], n, start, ext, TotalDraws(sts[..i]))
  {
    seq(|sts|, i requires 0 <= i < |sts| => AfterCycle(sts[i], n, start, ext, TotalDraws(sts[..i])))
  }


  /** Entry `i` of the master pan loop over the first `frames` stereo pairs: the pair
      that holds it goes through `pan`. */
  function PannedAt(buf: seq<real>, frames: nat, p: real, i: nat): real
    requires i < |buf| && 2 * frames <= |buf|
  {
    if i >= 2 * frames then buf[i]
    else if i % 2 == 0 then Pan(Stereo(buf[i], buf[i + 1]), p).left
    else Pan(Stereo(buf[i - 1], buf[i]), p).right
  }

  /** The master pan loop over the first `frames` stereo pairs. */
  function PanPairs(buf: seq<real>, frames: nat, p: real): (r: seq<real>)
    requires 2 * frames <= |buf|
    ensures |r| == |buf|
  {
    seq(|buf|, i requires 0 <= i < |buf| => PannedAt(buf, frames, p, i))
  }

  /** The master pan scales every left entry by the left gain and every right entry by
      the right gain, each from its own entry only, and leaves the entries past the
      block alone; centred, it halves the block. */
  lemma PanPairsGains(buf: seq<real>, frames: nat, p: real, i: nat)
    requires 2 * frames <= |buf| && i < |buf|
    ensures i < 2 * frames && i % 2 == 0 ==> PanPairs(buf, frames, p)[i] == buf[i] * PanGains(p).left
    ensures i < 2 * frames && i % 2 == 1 ==> PanPairs(buf, frames, p)[i] == buf[i] * PanGains(p).right
    ensures i >= 2 * frames ==> PanPairs(buf, frames, p)[i] == buf[i]
    ensures i < 2 * frames && p == 0.0 ==> PanPairs(buf, frames, p)[i] == buf[i] * 0.5
  {
    if i < 2 * frames && i % 2 == 1 {
      assert i - 1 >= 0;
    }
  }

  // ----- Note delivery -----

  /** `NoteOn` or `NoteOff` on a generator state: the note joins the queue of its kind
      in the slot being written. */
  function Receive(st: GenState, e: Event): (r: GenState)
    requires 0 <= st.writeIndex < 2
    ensures r.voices == st.voices && r.writeIndex == st.writeIndex
    ensures r.settings == st.settings && r.voicing == st.voicing
  {
    match e.action
    case On => st.(scheduledOn := Push(st.scheduledOn, st.writeIndex, e.note))
    case Off => st.(scheduledOff := Push(st.scheduledOff, st.writeIndex, e.note))
  }

  /** The events, in order, each sent to the generator it names; an event naming no
      generator is dropped. */
  function DeliverAll(sts: seq<GenState>, events: seq<Event>): (r: seq<GenState>)
    requires Indexed(sts)
    ensures |r| == |sts| && Indexed(r)
    ensures forall i :: 0 <= i < |sts| ==>
      r[i].voices == sts[i].voices && r[i].writeIndex == sts[i].writeIndex
      && r[i].settings == sts[i].settings && r[i].voicing == sts[i].voicing
    decreases |events|
  {
    if events == [] then sts
    else
      var prev := DeliverAll(sts, events[..|events| - 1]);
      var e := events[|events| - 1];
      if e.generator < |prev| then prev[e.generator := Receive(prev[e.generator], e)] else prev
  }

  /** The notes of the events of kind `a` addressed to generator `g`, in order. */
  function NotesFor(events: seq<Event>, g: nat, a: Action): seq<Note>
    decreases |events|
  {
    if events == [] then []
    else
      var e := events[|events| - 1];
      NotesFor(events[..|events| - 1], g, a) + (if e.generator == g && e.action == a then [e.note] else [])
  }

  /** Delivery keeps every generator ready. */
  lemma DeliverKeepsReady(sts: seq<GenState>, events: seq<Event>, start: nat)
    requires AllReady(sts, start)
    ensures Indexed(sts) && AllReady(DeliverAll(sts, events), start)
  {
    var r := DeliverAll(sts, events);
    forall i | 0 <= i < |r|
      ensures ReadyAt(r[i], start)
    {
      assert ReadyAt(sts[i], start);
    }
  }

  /** Each generator receives exactly the events addressed to it, in the order they
      were sent, at the end of the queues of the slot being written; the slot being
      drained does not change. */
  lemma {:induction false} DeliverAllRoutes(sts: seq<GenState>, events: seq<Event>, g: nat)
    requires Indexed(sts) && g < |sts|
    ensures var w := sts[g].writeIndex; var r := DeliverAll(sts, events)[g];
      Get(r.scheduledOn, w) == Get(sts[g].scheduledOn, w) + NotesFor(events, g, On)
      && Get(r.scheduledOff, w) == Get(sts[g].scheduledOff, w) + NotesFor(events, g, Off)
      && Get(r.scheduledOn, 1 - w) == Get(sts[g].scheduledOn, 1 - w)
      && Get(r.scheduledOff, 1 - w) == Get(sts[g].scheduledOff, 1 - w)
    decreases |events|
  {
    if events != [] {
      var last := |events| - 1;
      var w := sts[g].writeIndex;
      DeliverAllRoutes(sts, events[..last], g);
      var e := events[last];
      var prev := DeliverAll(sts, events[..last]);
      assert prev[g].writeIndex == w;
      DeliverLast(sts, events, g);
      var r := DeliverAll(sts, events)[g];
      if e.generator != g {
        assert r == prev[g];
      } else if e.action == On {
        assert r.scheduledOn == Push(prev[g].scheduledOn, w, e.note) && r.scheduledOff == prev[g].scheduledOff;
      } else {
        assert r.scheduledOff == Push(prev[g].scheduledOff, w, e.note) && r.scheduledOn == prev[g].scheduledOn;
      }
    }
  }

  /** The last event reaches generator `g` exactly when it names `g`. */
  lemma DeliverLast(sts: seq<GenState>, events: seq<Event>, g: nat)
    requires Indexed(sts) && g < |sts| && events != []
    ensures var e := events[|events| - 1]; var prev := DeliverAll(sts, events[..|events| - 1]);
      DeliverAll(sts, events)[g] == if e.generator == g then Receive(prev[g], e) else prev[g]
  {
    var prev := DeliverAll(sts, events[..|events| - 1]);
    var e := events[|events| - 1];
    var all := DeliverAll(sts, events);
    if e.generator < |prev| {
      assert all == prev[e.generator := Receive(prev[e.generator], e)];
      if e.generator == g {
        assert all[g] == Receive(prev[g], e);
      } else {
        assert all[g] == prev[g];
      }
    } else {
      assert all == prev;
    }
  }

  // ----- Reset and MIDI callbacks, on values -----

  /** The reset callback the backend registers: every generator's voice list is
      emptied; the queues are kept. */
  function ClearVoices(sts: seq<GenState>): (r: seq<GenState>)
    ensures |r| == |sts|
  {
    seq(|sts|, i requires 0 <= i < |sts| => sts[i].(voices := []))
  }

  /** The reset callbacks, in registration order. */
  function RunResetCallbacks(sts: seq<GenState>, cbs: seq<ResetCallback>): (r: seq<GenState>)
    ensures |r| == |sts| && (Indexed(sts) ==> Indexed(r))
    decreases |cbs|
  {
    if cbs == [] then sts
    else
      match cbs[|cbs| - 1]
      case ClearGeneratorVoices => ClearVoices(RunResetCallbacks(sts, cbs[..|cbs| - 1]))
  }

  /** With the callback registered at least once, a reset leaves every generator
      without voices and with its queues, slot and parameters as they were; with none
      registered it changes nothing. */
  lemma {:induction false} ResetCallbacksClear(sts: seq<GenState>, cbs: seq<ResetCallback>)
    ensures |RunResetCallbacks(sts, cbs)| == |sts|
    ensures cbs == [] ==> RunResetCallbacks(sts, cbs) == sts
    ensures cbs != [] ==> forall i :: 0 <= i < |sts| ==> RunResetCallbacks(sts, cbs)[i] == sts[i].(voices := [])
    decreases |cbs|
  {
    if cbs != [] {
      ResetCallbacksClear(sts, cbs[..|cbs| - 1]);
    }
  }

  /** Running the reset callbacks keeps every generator ready. */
  lemma ResetKeepsReady(sts: seq<GenState>, cbs: seq<ResetCallback>, start: nat)
    requires AllReady(sts, start)
    ensures AllReady(RunResetCallbacks(sts, cbs), start)
  {
    ResetCallbacksClear(sts, cbs);
    var r := RunResetCallbacks(sts, cbs);
    forall i | 0 <= i < |r|
      ensures ReadyAt(r[i], start)
    {
      assert ReadyAt(sts[i], start);
    }
  }

  /** The event the note callback sends to generator `selected`: a Note-On
      `{note, velocity}` for a positive velocity, otherwise a Note-Off `{note, 0}`. */
  function MidiNoteEvent(selected: nat, note: int, velocity: int): Event
  {
    if velocity > 0 then Event(selected, On, NoteEvent(note, velocity))
    else Event(selected, Off, NoteEvent(note, 0))
  }

  /** The note callback the backend registers, on generator states. */
  function RouteNote(sts: seq<GenState>, selected: int, note: int, velocity: int): (r: seq<GenState>)
    requires Indexed(sts) && -1 <= selected < |sts|
    ensures |r| == |sts| && Indexed(r)
  {
    if selected == -1 then sts else DeliverAll(sts, [MidiNoteEvent(selected, note, velocity)])
  }

  /** With no generator selected the note callback changes nothing; otherwise a
      positive velocity queues a Note-On `{note, velocity}`, and any other velocity a
      Note-Off `{note, 0}`, on the selected generator's slot being written, and no
      other queue or generator changes. */
  lemma RouteNoteEffect(sts: seq<GenState>, selected: int, note: int, velocity: int, g: nat)
    requires Indexed(sts) && -1 <= selected < |sts| && g < |sts|
    ensures var w := sts[g].writeIndex; var r := RouteNote(sts, selected, note, velocity)[g];
      r.voices == sts[g].voices && r.writeIndex == w
      && Get(r.scheduledOn, 1 - w) == Get(sts[g].scheduledOn, 1 - w)
      && Get(r.scheduledOff, 1 - w) == Get(sts[g].scheduledOff, 1 - w)
      && Get(r.scheduledOn, w) == Get(sts[g].scheduledOn, w)
           + (if g == selected && velocity > 0 then [NoteEvent(note, velocity)] else [])
      && Get(r.scheduledOff, w) == Get(sts[g].scheduledOff, w)
           + (if g == selected && velocity <= 0 then [NoteEvent(note, 0)] else [])
  {
    if selected != -1 {
      var evs := [MidiNoteEvent(selected, note, velocity)];
      DeliverAllRoutes(sts, evs, g);
      assert evs[..0] == [];
    }
  }

  /** The effect of the callback invocations of one MIDI message, in order; the
      logging callback changes no generator. */
  function ApplyCalls(sts: seq<GenState>, selected: int, calls: seq<Call>): (r: seq<GenState>)
    requires Indexed(sts) && -1 <= selected < |sts|
    ensures |r| == |sts| && Indexed(r)
    decreases |calls|
  {
    if calls == [] then sts
    else
      var prev := ApplyCalls(sts, selected, calls[..|calls| - 1]);
      match calls[|calls| - 1]
      case NoteCall(RouteToSelectedGenerator, n, v) => RouteNote(prev, selected, n, v)
      case GeneralCall(LogMessage, _, _, _) => prev
  }

  /** With the callbacks the backend registers, a MIDI message reaches the generators
      only as a Note On (status 0x90-0x9F, at least three bytes), routed like the note
      callback with its two data bytes; every other message, a MIDI Note Off included,
      leaves every generator unchanged. */
  lemma MidiMessageEffect(sts: seq<GenState>, selected: int, message: seq<byte>)
    requires Indexed(sts) && -1 <= selected < |sts|
    ensures ApplyCalls(sts, selected, Calls(Classify(true, message), [RouteToSelectedGenerator], [LogMessage]))
      == if |message| >= 3 && 0x90 <= message[0] as int <= 0x9F
         then RouteNote(sts, selected, message[1] as int, message[2] as int)
         else sts
  {
    var calls := Calls(Classify(true, message), [RouteToSelectedGenerator], [LogMessage]);
    if calls != [] {
      assert calls[..0] == [];
    }
  }

  // ----- The backend -----

  /** `std::fill(buffer, buffer + floats, 0.0f)`. */
  method ZeroScratch(buffer: array<real>, floats: nat)
    requires floats <= buffer.Length
    modifies buffer
    ensures buffer[..] == Zeroed(old(buffer[..]), floats)
  {
    var i := 0;
    while i < floats
      invariant 0 <= i <= floats
      invariant forall k :: 0 <= k < buffer.Length ==> buffer[k] == if k < i then 0.0 else old(buffer[k])
    {
      buffer[i] := 0.0;
      i := i + 1;
    }
  }

  /** The master pan loop: the first `frames` stereo pairs are panned in place. */
  method ApplyPan(buffer: array<real>, frames: nat, p: real)
    requires 2 * frames <= buffer.Length
    modifies buffer
    ensures buffer[..] == PanPairs(old(buffer[..]), frames, p)
  {
    ghost var buf0 := buffer[..];
    var i := 0;
    while i < 2 * frames
      invariant 0 <= i <= 2 * frames && i % 2 == 0
      invariant forall k :: 0 <= k < buffer.Length ==> buffer[k] == if k < i then PannedAt(buf0, frames, p, k) else buf0[k]
    {
      var panned := Pan(Stereo(buffer[i], buffer[i + 1]), p);
      buffer[i] := panned.left;
      buffer[i + 1] := panned.right;
      i := i + 2;
    }
  }

  /** Every sample multiplied by the volume `v`. */
  function Scaled(s: seq<real>, v: real): (r: seq<real>)
    ensures |r| == |s| && forall i :: 0 <= i < |s| ==> r[i] == s[i] * v
  {
    seq(|s|, i requires 0 <= i < |s| => s[i] * v)
  }

  /** The output loop: `out[i] = buffer[i] * volume` for the first `floats` entries. */
  method ScaleOut(out: array<real>, buffer: array<real>, floats: nat, volume: real)
    requires floats <= out.Length && floats <= buffer.Length && out != buffer
    modifies out
    ensures out[..floats] == Scaled(buffer[..floats], volume)
    ensures out[floats..] == old(out[floats..])
  {
    var i := 0;
    while i < floats
      invariant 0 <= i <= floats
      invariant forall k :: 0 <= k < i ==> out[k] == buffer[k] * volume
      invariant forall k :: floats <= k < out.Length ==> out[k] == old(out[k])
    {
      out[i] := buffer[i] * volume;
      i := i + 1;
    }
    assert forall k :: 0 <= k < floats ==> out[..floats][k] == Scaled(buffer[..floats], volume)[k];
  }

  /** The transport as the constructor leaves it: reset (no reset callback is
      registered yet, so none runs) and then given the callback that clears every
      generator's voices. */
  method NewTransport() returns (s: SequencerState)
    ensures fresh(s)
    ensures s.currentSample == 0 && s.currentProcessSample == 0 && !s.isPlaying
    ensures s.patterns == [] && s.resetCallbacks == [ClearGeneratorVoices]
  {
    s := new SequencerState();
    var callbacks, events := s.Reset();
    s.resetCallbacks := s.resetCallbacks + [ClearGeneratorVoices];
  }

  /** The MIDI manager as the constructor leaves it: the note callback that routes to
      the selected generator and the general callback that logs. */
  method NewMidiManager() returns (m: MidiManager)
    ensures fresh(m)
    ensures m.noteCallbacks == [RouteToSelectedGenerator] && m.generalCallbacks == [LogMessage]
  {
    m := new MidiManager();
    m.AddNoteCallback(RouteToSelectedGenerator);
    m.AddGeneralCallback(LogMessage);
  }

  class AudioBackend {
    var masterVolume: real
    var masterPan: real
    var generators: seq<WaveformGenerator>
    /** `sequencer_state` and `midi_manager`, members of the backend. */
    const sequencer: SequencerState
    const midi: MidiManager
    var selectedGenerator: int
    /** The file-scope scratch buffer of `BUFFER_SIZE * 2` floats. */
    const buffer: array<real>

    /** The generators are distinct objects. */
    ghost predicate Distinct()
      reads this
    {
      forall i, j :: 0 <= i < j < |generators| ==> generators[i] != generators[j]
    }

    /** The backend's invariant: a scratch buffer of two channels of `BufferSize`
        frames, distinct generators each ready to render from the processed-sample
        clock, and a selection that is -1 or a generator index. */
    ghost predicate Valid()
      reads this, sequencer, generators
    {
      ValidAt(sequencer.currentProcessSample)
    }

    /** The invariant with the generators ready from sample `c`. */
    ghost predicate ValidAt(c: nat)
      reads this, generators
    {
      buffer.Length == 2 * BufferSize && Distinct()
      && AllReady(States(), c)
      && -1 <= selectedGenerator < |generators|
    }

    /** The generators' states, in order. */
    ghost function States(): (sts: seq<GenState>)
      reads this, generators
      ensures |sts| == |generators| && forall i :: 0 <= i < |generators| ==> sts[i] == generators[i].State()
    {
      StatesOf(generators)
    }

    /** The constructor: one waveform generator, the transport reset, the reset
        callback that clears every generator's voices, the MIDI note callback that
        routes to the selected generator and the general callback that logs, master
        volume 1, master pan 0 and no generator selected. */
    constructor()
      ensures Valid() && fresh(buffer) && fresh(sequencer) && fresh(midi)
      ensures masterVolume == 1.0 && masterPan == 0.0 && selectedGenerator == -1
      ensures |generators| == 1 && fresh(generators[0])
      ensures generators[0].voices == [] && generators[0].writeIndex == 0
      ensures generators[0].scheduledOn == Queues([], []) && generators[0].scheduledOff == Queues([], [])
      ensures sequencer.currentSample == 0 && sequencer.currentProcessSample == 0 && !sequencer.isPlaying
      ensures sequencer.patterns == [] && sequencer.resetCallbacks == [ClearGeneratorVoices]
      ensures midi.noteCallbacks == [RouteToSelectedGenerator] && midi.generalCallbacks == [LogMessage]
    {
      masterVolume := 1.0;
      masterPan := 0.0;
      selectedGenerator := -1;
      buffer := new real[2 * BufferSize];
      var g := new WaveformGenerator();
      generators := [g];
      var transport := NewTransport();
      var manager := NewMidiManager();
      sequencer := transport;
      midi := manager;
    }

    /** `change_generator`: an index outside the generator list is ignored. */
    method ChangeGenerator(genIdx: int)
      requires Valid()
      modifies this`selectedGenerator
      ensures Valid()
      ensures 0 <= genIdx < |generators| ==> selectedGenerator == genIdx
      ensures !(0 <= genIdx < |generators|) ==> selectedGenerator == old(selectedGenerator)
    {
      if genIdx < 0 || genIdx >= |generators| {
        return;
      }
      selectedGenerator := genIdx;
    }

    /** `data_callback`: the scratch buffer's first `2 * frames` entries are zeroed,
        every generator renders `frames` stereo frames into it from the same
        processed-sample clock, the master pan is applied, the transport moves on by
        `frames` if it is playing (its Note-On and Note-Off calls reaching the
        generators), the processed-sample clock moves on by `frames` in any case, and
        the output receives the buffer scaled by the master volume. */
    method DataCallback(out: array<real>, frames: nat, ext: Externals)
      returns (draws: nat)
      requires Valid() && ValidExternals(ext)
      requires frames <= BufferSize && 2 * frames <= out.Length && out != buffer
      modifies buffer, out, sequencer, generators
      ensures Valid()
      ensures sequencer.State() == Advanced(old(sequencer.State()), frames)
      ensures States() == DeliverAll(AfterAll(old(States()), frames, old(sequencer.currentProcessSample), ext),
                                     MoveEvents(old(sequencer.State()), frames))
      ensures buffer[..] == PanPairs(MixAll(old(States()), Zeroed(old(buffer[..]), 2 * frames), frames,
                                            old(sequencer.currentProcessSample), ext), frames, masterPan)
      ensures out[..2 * frames] == Scaled(buffer[..2 * frames], masterVolume)
      ensures out[2 * frames..] == old(out[2 * frames..])
      ensures draws == TotalDraws(old(States()))
    {
      ghost var t0 := sequencer.State();
      ghost var objs: seq<object> := generators;
      assert sequencer !in objs && out !in objs;
      ghost var out0 := out[..];
      draws := RenderBlock(frames, ext);
      assert sequencer.State() == t0 && out[..] == out0;
      FinishBlock(out, frames);
    }

    /** The second half of the callback: the transport moves on, then the output
        receives the scratch buffer scaled by the master volume. */
    method FinishBlock(out: array<real>, frames: nat)
      requires ValidAt(sequencer.currentProcessSample + frames)
      requires frames <= BufferSize && 2 * frames <= out.Length && out != buffer
      modifies out, sequencer, generators
      ensures Valid()
      ensures sequencer.State() == Advanced(old(sequencer.State()), frames)
      ensures States() == DeliverAll(old(States()), MoveEvents(old(sequencer.State()), frames))
      ensures buffer[..] == old(buffer[..]) && masterPan == old(masterPan)
      ensures out[..2 * frames] == Scaled(buffer[..2 * frames], masterVolume)
      ensures out[2 * frames..] == old(out[2 * frames..])
    {
      ghost var objs: seq<object> := generators;
      assert out !in objs && buffer !in objs;
      ghost var out0 := out[..];
      AdvanceTransport(frames);
      ghost var t1 := sequencer.State();
      ghost var sts := States();
      assert out[..] == out0;
      var volume := masterVolume;
      ScaleOut(out, buffer, 2 * frames, volume);
      assert volume == masterVolume && States() == sts && sequencer.State() == t1;
    }

    /** The rendering half of the callback: zero, run the generators, pan. */
    method RenderBlock(frames: nat, ext: Externals)
      returns (draws: nat)
      requires Valid() && ValidExternals(ext) && frames <= BufferSize
      modifies buffer, generators
      ensures ValidAt(old(sequencer.currentProcessSample) + frames)
      ensures States() == AfterAll(old(States()), frames, old(sequencer.currentProcessSample), ext)
      ensures buffer[..] == PanPairs(MixAll(old(States()), Zeroed(old(buffer[..]), 2 * frames), frames,
                                            old(sequencer.currentProcessSample), ext), frames, masterPan)
      ensures draws == TotalDraws(old(States()))
    {
      ghost var objs: seq<object> := generators;
      assert this !in objs && buffer !in objs;
      draws := MixBlock(frames, ext);
      PanBlock(frames);
    }

    /** The master pan over the first `frames` stereo pairs of the scratch buffer. */
    method PanBlock(frames: nat)
      requires 2 * frames <= buffer.Length
      modifies buffer
      ensures buffer[..] == PanPairs(old(buffer[..]), frames, masterPan)
      ensures States() == old(States())
    {
      ghost var sts := States();
      ApplyPan(buffer, frames, masterPan);
      assert States() == sts;
    }

    /** Zero the scratch buffer, then run the generators into it. */
    method MixBlock(frames: nat, ext: Externals)
      returns (draws: nat)
      requires Valid() && ValidExternals(ext) && frames <= BufferSize
      modifies buffer, generators
      ensures ValidAt(old(sequencer.currentProcessSample) + frames)
      ensures States() == AfterAll(old(States()), frames, old(sequencer.currentProcessSample), ext)
      ensures buffer[..] == MixAll(old(States()), Zeroed(old(buffer[..]), 2 * frames), frames,
                                   old(sequencer.currentProcessSample), ext)
      ensures draws == TotalDraws(old(States()))
    {
      ghost var objs: seq<object> := generators;
      assert buffer !in objs;
      ghost var sts := States();
      ZeroScratch(buffer, 2 * frames);
      assert States() == sts;
      draws := RunGenerators(frames, ext);
    }

    /** The generator loop: each generator's `Process`, in registration order, on the
        scratch buffer with two channels and the processed-sample clock. */
    method RunGenerators(frames: nat, ext: Externals)
      returns (draws: nat)
      requires Valid() && ValidExternals(ext) && frames <= BufferSize
      modifies buffer, generators
      ensures ValidAt(old(sequencer.currentProcessSample) + frames)
      ensures States() == AfterAll(old(States()), frames, old(sequencer.currentProcessSample), ext)
      ensures buffer[..] == MixAll(old(States()), old(buffer[..]), frames, old(sequencer.currentProcessSample), ext)
      ensures draws == TotalDraws(old(States()))
    {
      ghost var objs: seq<object> := generators;
      assert this !in objs;
      var start := sequencer.currentProcessSample;
      draws := ProcessAll(generators, buffer, frames, start, ext);
    }

    /** The transport half of the callback: the song position moves on if playing,
        with the pattern calls delivered, and the processed-sample clock moves on. */
    method AdvanceTransport(frames: nat)
      requires ValidAt(sequencer.currentProcessSample + frames)
      modifies sequencer, generators
      ensures Valid()
      ensures sequencer.State() == Advanced(old(sequencer.State()), frames)
      ensures States() == DeliverAll(old(States()), MoveEvents(old(sequencer.State()), frames))
    {
      ghost var c := sequencer.currentProcessSample + frames;
      MoveTransport(frames, c);
      ProcessedBlock(frames, c);
    }

    /** `processed(frames)`: the processed-sample clock reaches `c`, from which the
        generators are ready. */
    method ProcessedBlock(frames: nat, ghost c: nat)
      requires ValidAt(c) && sequencer.currentProcessSample + frames == c
      modifies sequencer`currentProcessSample
      ensures Valid() && States() == old(States())
      ensures sequencer.State() == old(sequencer.State()).(currentProcessSample := c)
    {
      ghost var objs: seq<object> := generators;
      assert sequencer !in objs;
      sequencer.Processed(frames);
    }

    /** `move_forward` when playing, its calls delivered; nothing otherwise. */
    method MoveTransport(frames: nat, ghost c: nat)
      requires ValidAt(c)
      modifies sequencer`currentSample, sequencer`patterns, generators
      ensures ValidAt(c)
      ensures sequencer.State() == MovedForward(old(sequencer.State()), frames)
      ensures States() == DeliverAll(old(States()), MoveEvents(old(sequencer.State()), frames))
    {
      ghost var t0 := sequencer.State();
      ghost var sts0 := States();
      if sequencer.isPlaying {
        var events := sequencer.MoveForward(frames);
        ghost var t1 := sequencer.State();
        assert t1 == MovedForward(t0, frames) && events == MoveEvents(t0, frames);
        assert States() == sts0 && ValidAt(c);
        ghost var objs: seq<object> := generators;
        assert sequencer !in objs;
        Deliver(events, c);
        assert sequencer.State() == t1;
      } else {
        assert MoveEvents(t0, frames) == [];
      }
    }

    /** One event handed to the generator it names, if there is one. */
    method Send(e: Event)
      requires Distinct() && Indexed(States())
      modifies generators
      ensures States() == DeliverAll(old(States()), [e])
    {
      ghost var sts0 := States();
      assert [e][..0] == [];
      if e.generator < |generators| {
        var g := generators[e.generator];
        match e.action
        case On => g.NoteOn(e.note);
        case Off => g.NoteOff(e.note);
      }
    }

    /** The events, in order, each handed to the generator it names: the calls the
        patterns make through their generator pointers. */
    method Deliver(events: seq<Event>, ghost c: nat)
      requires ValidAt(c)
      modifies generators
      ensures ValidAt(c)
      ensures States() == DeliverAll(old(States()), events)
    {
      ghost var sts0 := States();
      var k := 0;
      while k < |events|
        invariant 0 <= k <= |events|
        invariant States() == DeliverAll(sts0, events[..k])
      {
        Send(events[k]);
        DeliverAllSnoc(sts0, events, k);
        k := k + 1;
      }
      assert events[..k] == events;
      DeliverKeepsReady(sts0, events, c);
    }

    /** The MIDI note callback: nothing while no generator is selected; otherwise a
        Note-On for a positive velocity and a Note-Off with velocity 0 for any other,
        on the selected generator. */
    method OnMidiNote(note: int, velocity: int)
      requires Valid()
      modifies generators
      ensures Valid()
      ensures States() == RouteNote(old(States()), selectedGenerator, note, velocity)
    {
      ghost var sts0 := States();
      if selectedGenerator == -1 {
        return;
      }
      Send(MidiNoteEvent(selectedGenerator, note, velocity));
      DeliverKeepsReady(sts0, [MidiNoteEvent(selectedGenerator, note, velocity)], sequencer.currentProcessSample);
    }

    /** `midiInputCallback` on the backend's manager, with the invocations it makes
        carried out. */
    method MidiInput(message: seq<byte>)
      requires Valid()
      modifies generators
      ensures Valid()
      ensures States() == ApplyCalls(old(States()), selectedGenerator,
                                     Calls(Classify(true, message), midi.noteCallbacks, midi.generalCallbacks))
    {
      var calls := InputCallback(midi, message);
      RunCalls(calls);
    }

    /** The invocations of one MIDI message, in order: the note callback as
        `OnMidiNote`, the logging callback as nothing. */
    method RunCalls(calls: seq<Call>)
      requires Valid()
      modifies generators
      ensures Valid()
      ensures States() == ApplyCalls(old(States()), selectedGenerator, calls)
    {
      ghost var sts0 := States();
      var k := 0;
      while k < |calls|
        invariant 0 <= k <= |calls|
        invariant Valid() && States() == ApplyCalls(sts0, selectedGenerator, calls[..k])
      {
        assert calls[..k + 1][..k] == calls[..k];
        match calls[k] {
          case NoteCall(_, n, v) => OnMidiNote(n, v);
          case GeneralCall(_, _, _, _) =>
        }
        k := k + 1;
      }
      assert calls[..k] == calls;
    }

    /** The reset callback: every generator's voice list is emptied. */
    method ClearAllVoices()
      requires Distinct()
      modifies generators
      ensures States() == ClearVoices(old(States()))
    {
      var i := 0;
      while i < |generators|
        invariant 0 <= i <= |generators|
        invariant forall k :: 0 <= k < i ==> generators[k].State() == old(generators[k].State()).(voices := [])
        invariant forall k :: i <= k < |generators| ==> generators[k].State() == old(generators[k].State())
      {
        generators[i].voices := [];
        i := i + 1;
      }
    }

    /** `sequencer_state.reset()` inside the engine: the transport is reset, its reset
        callbacks run in order, and the Note-Offs of stopping every pattern reach
        their generators. */
    method ResetTransport()
      requires Valid()
      modifies sequencer, generators
      ensures Valid()
      ensures sequencer.currentSample == 0 && !sequencer.isPlaying
      ensures sequencer.currentProcessSample == old(sequencer.currentProcessSample)
      ensures sequencer.patterns == StopPatterns(old(sequencer.patterns))
      ensures sequencer.resetCallbacks == old(sequencer.resetCallbacks)
      ensures States() == DeliverAll(RunResetCallbacks(old(States()), old(sequencer.resetCallbacks)),
                                     PatternsStopEvents(old(sequencer.patterns)))
    {
      ghost var sts0 := States();
      var callbacks, events := sequencer.Reset();
      assert States() == sts0;
      AfterReset(callbacks, events);
    }

    /** What follows the transport's own reset: the callbacks it returned run, then
        the Note-Offs of the stopped patterns are delivered. */
    method AfterReset(callbacks: seq<ResetCallback>, events: seq<Event>)
      requires Valid()
      modifies generators
      ensures Valid()
      ensures States() == DeliverAll(RunResetCallbacks(old(States()), callbacks), events)
    {
      ghost var sts0 := States();
      ghost var cps := sequencer.currentProcessSample;
      ghost var gs := generators;
      RunCallbacks(callbacks);
      ResetKeepsReady(sts0, callbacks, cps);
      assert ValidAt(cps);
      Deliver(events, cps);
      assert generators == gs && sequencer.currentProcessSample == cps;
    }

    /** The reset callbacks, in registration order. */
    method RunCallbacks(callbacks: seq<ResetCallback>)
      requires Distinct()
      modifies generators
      ensures States() == RunResetCallbacks(old(States()), callbacks)
    {
      ghost var sts0 := States();
      var k := 0;
      while k < |callbacks|
        invariant 0 <= k <= |callbacks|
        invariant States() == RunResetCallbacks(sts0, callbacks[..k])
      {
        assert callbacks[..k + 1][..k] == callbacks[..k];
        match callbacks[k] {
          case ClearGeneratorVoices => ClearAllVoices();
        }
        k := k + 1;
      }
      assert callbacks[..k] == callbacks;
    }

    /** `sequencer_state.pause()` inside the engine: playback stops and the Note-Offs
        of every playing note reach their generators. */
    method PauseTransport()
      requires Valid()
      modifies sequencer`isPlaying, generators
      ensures Valid() && !sequencer.isPlaying
      ensures States() == DeliverAll(old(States()), PatternsStopEvents(sequencer.patterns))
    {
      ghost var sts0 := States();
      ghost var cps := sequencer.currentProcessSample;
      var events := sequencer.Pause();
      assert States() == sts0 && ValidAt(cps);
      Deliver(events, cps);
      assert sequencer.currentProcessSample == cps;
    }
  }

  /** The generator loop over a list of distinct generators. */
  method ProcessAll(gs: seq<WaveformGenerator>, buffer: array<real>, frames: nat, start: nat, ext: Externals)
    returns (draws: nat)
    requires forall i, j :: 0 <= i < j < |gs| ==> gs[i] != gs[j]
    requires AllReady(StatesOf(gs), start) && ValidExternals(ext) && 2 * frames <= buffer.Length
    modifies buffer, gs
    ensures StatesOf(gs) == AfterAll(old(StatesOf(gs)), frames, start, ext)
    ensures buffer[..] == MixAll(old(StatesOf(gs)), old(buffer[..]), frames, start, ext)
    ensures draws == TotalDraws(old(StatesOf(gs)))
  {
    ghost var sts0 := StatesOf(gs);
    ghost var buf0 := buffer[..];
    draws := 0;
    NoneProcessed(gs, sts0, frames, start, ext, buf0);
    var i := 0;
    while i < |gs|
      invariant 0 <= i <= |gs|
      invariant ProcessedUpTo(gs, sts0, i, frames, start, ext)
      invariant MixedUpTo(sts0, i, buf0, buffer[..], draws, frames, start, ext)
    {
      draws := ProcessNext(gs, buffer, frames, start, ext, sts0, buf0, i, draws);
      i := i + 1;
    }
    AllProcessed(gs, sts0, frames, start, ext, buf0, buffer[..], draws);
  }

  /** Before the loop no generator has run. */
  lemma NoneProcessed(gs: seq<WaveformGenerator>, sts0: seq<GenState>, frames: nat, start: nat, ext: Externals,
                      buf0: seq<real>)
    requires StatesOf(gs) == sts0 && AllReady(sts0, start) && ValidExternals(ext) && 2 * frames <= |buf0|
    ensures ProcessedUpTo(gs, sts0, 0, frames, start, ext)
    ensures MixedUpTo(sts0, 0, buf0, buf0, 0, frames, start, ext)
  {
    assert sts0[..0] == [];
  }

  /** After the loop every generator has run its cycle, the buffer holds all of their
      output and the draws of all of them are counted. */
  lemma AllProcessed(gs: seq<WaveformGenerator>, sts0: seq<GenState>, frames: nat, start: nat, ext: Externals,
                     buf0: seq<real>, mixed: seq<real>, draws: nat)
    requires ProcessedUpTo(gs, sts0, |gs|, frames, start, ext)
    requires MixedUpTo(sts0, |gs|, buf0, mixed, draws, frames, start, ext)
    ensures StatesOf(gs) == AfterAll(sts0, frames, start, ext)
    ensures mixed == MixAll(sts0, buf0, frames, start, ext) && draws == TotalDraws(sts0)
  {
    assert sts0[..|gs|] == sts0;
    AfterAllPointwise(sts0, StatesOf(gs), frames, start, ext);
  }

  /** The buffer holds the output of the generators before `i`, mixed into `buf0`, and
      `draws` counts their `rand()` calls. */
  ghost predicate MixedUpTo(sts0: seq<GenState>, i: nat, buf0: seq<real>, mixed: seq<real>, draws: nat,
                            frames: nat, start: nat, ext: Externals)
  {
    i <= |sts0| && AllReady(sts0, start) && ValidExternals(ext) && 2 * frames <= |buf0|
    && mixed == MixAll(sts0[..i], buf0, frames, start, ext) && draws == TotalDraws(sts0[..i])
  }

  /** Generators before `i` have run their cycle; the others are as they were. */
  ghost predicate ProcessedUpTo(gs: seq<WaveformGenerator>, sts0: seq<GenState>, i: nat, frames: nat, start: nat,
                                ext: Externals)
    reads gs
  {
    |gs| == |sts0| && AllReady(sts0, start) && i <= |gs|
    && (forall k :: 0 <= k < i ==> gs[k].State() == AfterCycle(sts0[k], frames, start, ext, TotalDraws(sts0[..k])))
    && (forall k :: i <= k < |gs| ==> gs[k].State() == sts0[k])
  }

  /** One step of the generator loop: generator `i` renders into the buffer. */
  method ProcessNext(gs: seq<WaveformGenerator>, buffer: array<real>, frames: nat, start: nat, ext: Externals,
                     ghost sts0: seq<GenState>, ghost buf0: seq<real>, i: nat, draws: nat)
    returns (draws': nat)
    requires forall i, j :: 0 <= i < j < |gs| ==> gs[i] != gs[j]
    requires ValidExternals(ext) && 2 * frames <= |buf0| == buffer.Length && i < |gs|
    requires ProcessedUpTo(gs, sts0, i, frames, start, ext)
    requires MixedUpTo(sts0, i, buf0, buffer[..], draws, frames, start, ext)
    modifies buffer, gs[i]
    ensures ProcessedUpTo(gs, sts0, i + 1, frames, start, ext)
    ensures MixedUpTo(sts0, i + 1, buf0, buffer[..], draws', frames, start, ext)
  {
    var g := gs[i];
    FrameOffsetIsProduct(frames, 2);
    ghost var mixed := buffer[..];
    TotalDrawsNext(sts0, i);
    draws' := g.Process(buffer, 2, frames, start, ext, draws);
    MixAllNext(sts0, buf0, frames, start, ext, i, mixed, buffer[..]);
  }

  /** One more generator's draws. */
  lemma TotalDrawsNext(sts: seq<GenState>, i: nat)
    requires i < |sts|
    ensures TotalDraws(sts[..i + 1]) == TotalDraws(sts[..i]) + CycleDraws(sts[i])
  {
    assert sts[..i + 1][..i] == sts[..i];
  }

  /** States that each generator reached by its own cycle are the states of the cycle. */
  lemma AfterAllPointwise(sts: seq<GenState>, sts': seq<GenState>, n: nat, start: nat, ext: Externals)
    requires AllReady(sts, start) && |sts'| == |sts|
    requires forall k :: 0 <= k < |sts| ==> sts'[k] == AfterCycle(sts[k], n, start, ext, TotalDraws(sts[..k]))
    ensures sts' == AfterAll(sts, n, start, ext)
  {
  }

  /** One more generator mixed in. */
  lemma MixAllNext(sts: seq<GenState>, buf: seq<real>, n: nat, start: nat, ext: Externals, i: nat,
                   mixed: seq<real>, mixed': seq<real>)
    requires AllReady(sts, start) && ValidExternals(ext) && 2 * n <= |buf| && i < |sts|
    requires FrameOffset(n, 2) <= |mixed|
    requires mixed == MixAll(sts[..i], buf, n, start, ext)
    requires mixed' == CycleMix(sts[i], mixed, 2, n, start, ext, TotalDraws(sts[..i]))
    ensures mixed' == MixAll(sts[..i + 1], buf, n, start, ext)
  {
    assert sts[..i + 1][..i] == sts[..i];
  }

  /** One more event delivered. */
  lemma DeliverAllSnoc(sts: seq<GenState>, events: seq<Event>, k: nat)
    requires Indexed(sts) && k < |events|
    ensures DeliverAll(sts, events[..k + 1]) == DeliverAll(DeliverAll(sts, events[..k]), [events[k]])
  {
    assert events[..k + 1][..k] == events[..k];
    assert [events[k]][..0] == [];
  }
}
