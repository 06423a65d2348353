/** The transport (SequencerState.h): the song position, the processed-sample clock,
    the play flag and the patterns it drives. */
module Transport {
  import opened Definitions
  import opened Sequencing

  /** The callbacks a reset runs. The engine registers one kind only: the backend's
      callback that empties every generator's voice list. */
  datatype ResetCallback = ClearGeneratorVoices

  function UpdatePatterns(ps: seq<Pattern>, cur: nat): (r: seq<Pattern>)
    ensures |r| == |ps|
  {
    seq(|ps|, i requires 0 <= i < |ps| => ps[i].(sequences := UpdateSequences(ps[i].sequences, cur)))
  }

  /** The calls of all patterns' updates, pattern after pattern. */
  function PatternsUpdateEvents(ps: seq<Pattern>, cur: nat): seq<Event>
    decreases |ps|
  {
    if ps == [] then []
    else PatternsUpdateEvents(ps[..|ps| - 1], cur) + SequencesUpdateEvents(ps[|ps| - 1].sequences, cur)
  }

  function StopPatterns(ps: seq<Pattern>): (r: seq<Pattern>)
    ensures |r| == |ps|
  {
    seq(|ps|, i requires 0 <= i < |ps| => ps[i].(sequences := StopSequences(ps[i].sequences)))
  }

  /** The Note-Offs of stopping (or pausing) all patterns, pattern after pattern. */
  function PatternsStopEvents(ps: seq<Pattern>): seq<Event>
    decreases |ps|
  {
    if ps == [] then []
    else PatternsStopEvents(ps[..|ps| - 1]) + SequencesStopEvents(ps[|ps| - 1].sequences)
  }

  /** After all patterns are stopped no note of any of them is playing, and stopping
      them again sends nothing and changes nothing. */
  lemma {:induction false} StopPatternsIdempotent(ps: seq<Pattern>)
    ensures forall i, j, k :: 0 <= i < |ps| && 0 <= j < |ps[i].sequences| && 0 <= k < |ps[i].sequences[j].notes| ==>
      !StopPatterns(ps)[i].sequences[j].notes[k].isPlaying
    ensures PatternsStopEvents(StopPatterns(ps)) == []
    ensures StopPatterns(StopPatterns(ps)) == StopPatterns(ps)
    decreases |ps|
  {
    if ps != [] {
      var last := |ps| - 1;
      StopPatternsIdempotent(ps[..last]);
      assert StopPatterns(ps)[..last] == StopPatterns(ps[..last]);
      PatternStopIdempotent(ps[last].sequences);
    }
    forall i | 0 <= i < |ps|
      ensures forall j, k :: 0 <= j < |ps[i].sequences| && 0 <= k < |ps[i].sequences[j].notes| ==>
        !StopPatterns(ps)[i].sequences[j].notes[k].isPlaying
    {
      PatternStopIdempotent(ps[i].sequences);
    }
  }

  /** Everything a `SequencerState` holds, as a value. */
  datatype TransportState = TransportState(currentSample: nat, currentProcessSample: nat, isPlaying: bool,
                                           patterns: seq<Pattern>, idCounter: int,
                                           resetCallbacks: seq<ResetCallback>)

  /** `move_forward(samples)` as the device callback calls it, only while playing: the
      song position moves by `samples` and every pattern is updated there. */
  function MovedForward(t: TransportState, samples: nat): TransportState
  {
    if t.isPlaying
    then t.(currentSample := t.currentSample + samples,
            patterns := UpdatePatterns(t.patterns, t.currentSample + samples))
    else t
  }

  /** The Note-On and Note-Off calls of that move, in order. */
  function MoveEvents(t: TransportState, samples: nat): seq<Event>
  {
    if t.isPlaying then PatternsUpdateEvents(t.patterns, t.currentSample + samples) else []
  }

  /** The transport after one device callback of `samples` frames: moved forward if
      playing, then `processed(samples)`. */
  function Advanced(t: TransportState, samples: nat): TransportState
  {
    var m := MovedForward(t, samples);
    m.(currentProcessSample := m.currentProcessSample + samples)
  }

  /** One callback moves the processed-sample clock by its length whether or not the
      transport plays, and the song position by the same amount exactly when it plays;
      nothing else but the patterns changes, and they change only while playing. */
  lemma AdvancedClocks(t: TransportState, samples: nat)
    ensures var r := Advanced(t, samples);
      r.currentProcessSample == t.currentProcessSample + samples
      && r.isPlaying == t.isPlaying && r.idCounter == t.idCounter && r.resetCallbacks == t.resetCallbacks
      && (r.currentSample - t.currentSample == if t.isPlaying then samples else 0)
      && (!t.isPlaying ==> r.patterns == t.patterns && MoveEvents(t, samples) == [])
  {
  }

  class SequencerState {
    /** `current_sample`: the song position, in samples. */
    var currentSample: nat
    /** `current_process_sample`: the samples rendered so far, playing or not. */
    var currentProcessSample: nat
    var isPlaying: bool
    var patterns: seq<Pattern>
    var idCounter: int
    var resetCallbacks: seq<ResetCallback>

    /** The fields, as a value. */
    function State(): (t: TransportState)
      reads this
      ensures t.currentSample == currentSample && t.currentProcessSample == currentProcessSample
      ensures t.isPlaying == isPlaying && t.patterns == patterns
      ensures t.idCounter == idCounter && t.resetCallbacks == resetCallbacks
    {
      TransportState(currentSample, currentProcessSample, isPlaying, patterns, idCounter, resetCallbacks)
    }

    /** The default state: both clocks at 0, stopped, no patterns, no callbacks. */
    constructor()
      ensures currentSample == 0 && currentProcessSample == 0 && !isPlaying
      ensures patterns == [] && idCounter == 0 && resetCallbacks == []
    {
      currentSample := 0;
      currentProcessSample := 0;
      isPlaying := false;
      patterns := [];
      idCounter := 0;
      resetCallbacks := [];
    }

    /** `move_forward`: while playing, the song position moves by `samples` and then
        every pattern is updated at the new position, in order; while stopped nothing
        changes and nothing is sent. */
    method MoveForward(samples: nat) returns (events: seq<Event>)
      modifies this`currentSample, this`patterns
      ensures !isPlaying ==> currentSample == old(currentSample) && patterns == old(patterns) && events == []
      ensures isPlaying ==> currentSample == old(currentSample) + samples
      ensures isPlaying ==> patterns == UpdatePatterns(old(patterns), currentSample)
      ensures isPlaying ==> events == PatternsUpdateEvents(old(patterns), currentSample)
    {
      events := [];
      if isPlaying {
        currentSample := currentSample + samples;
        var ps := patterns;
        ghost var ps0 := patterns;
        var i := 0;
        while i < |ps|
          invariant 0 <= i <= |ps| == |ps0| && currentSample == old(currentSample) + samples
          invariant forall k :: 0 <= k < i ==> ps[k] == ps0[k].(sequences := UpdateSequences(ps0[k].sequences, currentSample))
          invariant forall k :: i <= k < |ps| ==> ps[k] == ps0[k]
          invariant events == PatternsUpdateEvents(ps0[..i], currentSample)
        {
          var p', e := UpdatePattern(ps[i], currentSample);
          ps := ps[i := p'];
          events := events + e;
          assert ps0[..i + 1][..i] == ps0[..i];
          i := i + 1;
        }
        assert ps0[..i] == ps0;
        patterns := ps;
      }
    }

    /** `processed`: the processed-sample clock moves by `samples`, always. */
    method Processed(samples: nat)
      modifies this`currentProcessSample
      ensures currentProcessSample == old(currentProcessSample) + samples
    {
      currentProcessSample := currentProcessSample + samples;
    }

    /** `reset`: the song position returns to 0 and playback stops; then the reset
        callbacks run, in registration order (returned here for the caller to run);
        then every pattern is stopped. The processed-sample clock is kept. */
    method Reset() returns (callbacks: seq<ResetCallback>, events: seq<Event>)
      modifies this`currentSample, this`isPlaying, this`patterns
      ensures currentSample == 0 && !isPlaying
      ensures callbacks == resetCallbacks
      ensures patterns == StopPatterns(old(patterns))
      ensures events == PatternsStopEvents(old(patterns))
    {
      currentSample := 0;
      isPlaying := false;
      callbacks := resetCallbacks;
      events := StopAll();
    }

    /** The loop of `reset` that stops every pattern in order. */
    method StopAll() returns (events: seq<Event>)
      modifies this`patterns
      ensures patterns == StopPatterns(old(patterns))
      ensures events == PatternsStopEvents(old(patterns))
    {
      var ps := patterns;
      ghost var ps0 := patterns;
      events := [];
      var i := 0;
      while i < |ps|
        invariant 0 <= i <= |ps| == |ps0|
        invariant forall k :: 0 <= k < i ==> ps[k] == ps0[k].(sequences := StopSequences(ps0[k].sequences))
        invariant forall k :: i <= k < |ps| ==> ps[k] == ps0[k]
        invariant events == PatternsStopEvents(ps0[..i])
      {
        var p', e := StopPattern(ps[i]);
        ps := ps[i := p'];
        events := events + e;
        assert ps0[..i + 1][..i] == ps0[..i];
        i := i + 1;
      }
      assert ps0[..i] == ps0;
      patterns := ps;
    }

    /** `start`. */
    method Start()
      modifies this`isPlaying
      ensures isPlaying
    {
      isPlaying := true;
    }

    /** `pause`: playback stops and every playing note gets a Note-Off, but the notes
        stay marked as playing and the song position is kept. */
    method Pause() returns (events: seq<Event>)
      modifies this`isPlaying
      ensures !isPlaying
      ensures events == PatternsStopEvents(patterns)
    {
      isPlaying := false;
      events := [];
      var i := 0;
      while i < |patterns|
        invariant 0 <= i <= |patterns| && !isPlaying
        invariant events == PatternsStopEvents(patterns[..i])
      {
        var e := PausePattern(patterns[i]);
        events := events + e;
        assert patterns[..i + 1][..i] == patterns[..i];
        i := i + 1;
      }
      assert patterns[..i] == patterns;
    }

    /** `get_current_slice`: the position within the current one-second slice. */
    function CurrentSlice(): (slice: nat)
      reads this
      ensures slice < SliceSize
      ensures CurrentBucket() * SliceSize + slice == currentSample
    {
      currentSample % SliceSize
    }

    /** `get_current_bucket`: the number of whole slices before the position. */
    function CurrentBucket(): (bucket: nat)
      reads this
      ensures bucket * SliceSize <= currentSample < (bucket + 1) * SliceSize
    {
      currentSample / SliceSize
    }
  }
}
