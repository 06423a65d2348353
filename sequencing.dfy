/** The score side of the sequencer (NoteSequence.h, Pattern.h). A note sequence
    holds notes and the generator they are played on; a pattern holds sequences.
    Both live by value inside vectors, so their updating members are modelled as
    methods that take the value and return the updated value together with the
    Note-On/Note-Off calls they make, in call order. */
module Sequencing {
  import opened Definitions

  datatype Action = On | Off

  /** A call `generator->NoteOn(note)` or `generator->NoteOff(note)`; the generator is
      named by its position in the backend's generator list. */
  datatype Event = Event(generator: nat, action: Action, note: Note)

  /** `NoteSequence`. */
  datatype NoteSequence = NoteSequence(notes: seq<Note>, generator: nat)

  /** `Pattern`. */
  datatype Pattern = Pattern(name: string, id: int, sequences: seq<NoteSequence>)

  // ---------------------------------------------------------------------------
  // NoteSequence::update

  /** The first branch of the rule: the note is not playing and `cur` lies in
      [play_time, stop_time). */
  predicate Starts(n: Note, cur: nat)
  {
    !n.isPlaying && n.playTime <= cur && n.stopTime > cur
  }

  /** The calls one note causes at sample `cur`: a Note-On when it starts, otherwise a
      Note-Off once its stop time has been reached. */
  function NoteEvents(g: nat, n: Note, cur: nat): seq<Event>
  {
    if Starts(n, cur) then [Event(g, On, n)]
    else if n.stopTime <= cur then [Event(g, Off, n)]
    else []
  }

  /** The note after the rule: a starting note is marked as playing. */
  function UpdateNote(n: Note, cur: nat): Note
  {
    if Starts(n, cur) then n.(isPlaying := true) else n
  }

  /** The rule for one note, by case: a Note-On exactly inside the window of a note
      that is not playing; a Note-Off at every update from the stop time on, whether
      or not the note is playing; nothing before the play time or while a playing note
      is inside its window. Only the playing flag can change, and it is never cleared;
      a note whose window is empty never starts. */
  lemma NoteRule(g: nat, n: Note, cur: nat)
    ensures NoteEvents(g, n, cur) == [Event(g, On, n)] <==> !n.isPlaying && n.playTime <= cur < n.stopTime
    ensures NoteEvents(g, n, cur) == [Event(g, Off, n)] <==> n.stopTime <= cur
    ensures NoteEvents(g, n, cur) == [] <==> cur < n.stopTime && (n.isPlaying || cur < n.playTime)
    ensures UpdateNote(n, cur) == n.(isPlaying := n.isPlaying || NoteEvents(g, n, cur) == [Event(g, On, n)])
    ensures n.isPlaying ==> UpdateNote(n, cur).isPlaying
    ensures n.stopTime <= n.playTime ==> NoteEvents(g, n, cur) != [Event(g, On, n)]
  {
  }

  function UpdateNotes(notes: seq<Note>, cur: nat): (r: seq<Note>)
    ensures |r| == |notes|
  {
    seq(|notes|, i requires 0 <= i < |notes| => UpdateNote(notes[i], cur))
  }

  /** The calls of one `update`, note after note in list order. */
  function UpdateEvents(g: nat, notes: seq<Note>, cur: nat): seq<Event>
    decreases |notes|
  {
    if notes == [] then []
    else UpdateEvents(g, notes[..|notes| - 1], cur) + NoteEvents(g, notes[|notes| - 1], cur)
  }

  /** `NoteSequence::update`: the notes are visited in order, each making at most one
      call on the sequence's generator. */
  method UpdateSequence(s: NoteSequence, cur: nat) returns (s': NoteSequence, events: seq<Event>)
    ensures s' == s.(notes := UpdateNotes(s.notes, cur))
    ensures events == UpdateEvents(s.generator, s.notes, cur)
  {
    var notes := s.notes;
    events := [];
    var i := 0;
    while i < |notes|
      invariant 0 <= i <= |notes| == |s.notes|
      invariant forall k :: 0 <= k < i ==> notes[k] == UpdateNote(s.notes[k], cur)
      invariant forall k :: i <= k < |notes| ==> notes[k] == s.notes[k]
      invariant events == UpdateEvents(s.generator, s.notes[..i], cur)
    {
      var note := notes[i];
      if !note.isPlaying && note.playTime <= cur && note.stopTime > cur {
        events := events + [Event(s.generator, On, note)];
        notes := notes[i := note.(isPlaying := true)];
      } else if note.stopTime <= cur {
        events := events + [Event(s.generator, Off, note)];
      }
      assert s.notes[..i + 1][..i] == s.notes[..i];
      i := i + 1;
    }
    assert s.notes[..i] == s.notes;
    s' := s.(notes := notes);
  }

  /** One `update` makes at most one call per note, all on the sequence's generator. */
  lemma {:induction false} UpdateEventsBound(g: nat, notes: seq<Note>, cur: nat)
    ensures |UpdateEvents(g, notes, cur)| <= |notes|
    ensures forall e :: e in UpdateEvents(g, notes, cur) ==> e.generator == g
    decreases |notes|
  {
    if notes != [] {
      UpdateEventsBound(g, notes[..|notes| - 1], cur);
    }
  }

  // ---------------------------------------------------------------------------
  // One note across successive updates

  /** The note after updates at the samples `clocks`, in order. */
  function NoteAfter(n: Note, clocks: seq<nat>): Note
    decreases |clocks|
  {
    if clocks == [] then n else NoteAfter(UpdateNote(n, clocks[0]), clocks[1..])
  }

  /** What each call does, On or Off, without its generator and note. */
  function Actions(events: seq<Event>): (r: seq<Action>)
    ensures |r| == |events|
  {
    seq(|events|, k requires 0 <= k < |events| => events[k].action)
  }

  /** The calls the note causes across those updates, in order: at each update, those
      of the rule `NoteEvents`. */
  function NoteActions(n: Note, clocks: seq<nat>): seq<Action>
    decreases |clocks|
  {
    if clocks == [] then []
    else Actions(NoteEvents(0, n, clocks[0])) + NoteActions(UpdateNote(n, clocks[0]), clocks[1..])
  }

  function CountOn(actions: seq<Action>): nat
    decreases |actions|
  {
    if actions == [] then 0 else (if actions[0] == On then 1 else 0) + CountOn(actions[1..])
  }

  /** However the clock moves, a note causes at most one Note-On, and none at all once
      it is playing, because updating never clears the playing flag. */
  lemma {:induction false} AtMostOneNoteOn(n: Note, clocks: seq<nat>)
    ensures CountOn(NoteActions(n, clocks)) <= (if n.isPlaying then 0 else 1)
    ensures n.isPlaying ==> NoteAfter(n, clocks).isPlaying
    decreases |clocks|
  {
    if clocks != [] {
      var n' := UpdateNote(n, clocks[0]);
      AtMostOneNoteOn(n', clocks[1..]);
      var first := Actions(NoteEvents(0, n, clocks[0]));
      CountOnConcat(first, NoteActions(n', clocks[1..]));
    }
  }

  lemma {:induction false} CountOnConcat(a: seq<Action>, b: seq<Action>)
    ensures CountOn(a + b) == CountOn(a) + CountOn(b)
    decreases |a|
  {
    if a != [] {
      var head := if a[0] == On then 1 else 0;
      assert (a + b)[0] == a[0] && (a + b)[1..] == a[1..] + b;
      CountOnConcat(a[1..], b);
      assert CountOn(a + b) == head + CountOn(a[1..] + b);
    } else {
      assert a + b == b;
    }
  }

  /** A note whose stop time is not after its play time never causes a Note-On. */
  lemma {:induction false} EmptyWindowNeverStarts(n: Note, clocks: seq<nat>)
    requires n.stopTime <= n.playTime
    ensures On !in NoteActions(n, clocks)
    decreases |clocks|
  {
    if clocks != [] {
      assert UpdateNote(n, clocks[0]) == n;
      EmptyWindowNeverStarts(n, clocks[1..]);
    }
  }

  /** Once the stop time has passed, every update causes a Note-Off again: the Note-Off
      is repeated, not sent once. */
  lemma {:induction false} NoteOffRepeats(n: Note, clocks: seq<nat>)
    requires forall k :: 0 <= k < |clocks| ==> n.stopTime <= clocks[k]
    ensures NoteActions(n, clocks) == seq(|clocks|, _ => Off)
    ensures NoteAfter(n, clocks) == n
    decreases |clocks|
  {
    if clocks != [] {
      assert UpdateNote(n, clocks[0]) == n;
      NoteOffRepeats(n, clocks[1..]);
    }
  }

  /** Updating a whole sequence at those samples updates each note on its own. */
  function SequenceAfter(s: NoteSequence, clocks: seq<nat>): NoteSequence
    decreases |clocks|
  {
    if clocks == [] then s else SequenceAfter(s.(notes := UpdateNotes(s.notes, clocks[0])), clocks[1..])
  }

  lemma {:induction false} SequenceAfterPerNote(s: NoteSequence, clocks: seq<nat>, i: nat)
    requires i < |s.notes|
    ensures |SequenceAfter(s, clocks).notes| == |s.notes|
    ensures SequenceAfter(s, clocks).notes[i] == NoteAfter(s.notes[i], clocks)
    ensures SequenceAfter(s, clocks).generator == s.generator
    decreases |clocks|
  {
    if clocks != [] {
      SequenceAfterPerNote(s.(notes := UpdateNotes(s.notes, clocks[0])), clocks[1..], i);
    }
  }

  // ---------------------------------------------------------------------------
  // Pattern::stop and Pattern::pause

  function StopNotes(notes: seq<Note>): (r: seq<Note>)
    ensures |r| == |notes|
  {
    seq(|notes|, i requires 0 <= i < |notes| => notes[i].(isPlaying := false))
  }

  /** The playing notes, in list order. */
  function PlayingNotes(notes: seq<Note>): seq<Note>
    decreases |notes|
  {
    if notes == [] then []
    else PlayingNotes(notes[..|notes| - 1]) + (if notes[|notes| - 1].isPlaying then [notes[|notes| - 1]] else [])
  }

  /** The Note-Offs a stop or a pause sends for the notes of one sequence. */
  function StopEvents(g: nat, notes: seq<Note>): seq<Event>
    decreases |notes|
  {
    if notes == [] then []
    else
      var n := notes[|notes| - 1];
      StopEvents(g, notes[..|notes| - 1]) + (if n.isPlaying then [Event(g, Off, n)] else [])
  }

  /** Stopping sends exactly one Note-Off per playing note, in order, on the sequence's
      generator, and no other call. */
  lemma {:induction false} StopEventsArePlayingNotes(g: nat, notes: seq<Note>)
    ensures |StopEvents(g, notes)| == |PlayingNotes(notes)|
    ensures forall k :: 0 <= k < |StopEvents(g, notes)| ==>
      StopEvents(g, notes)[k] == Event(g, Off, PlayingNotes(notes)[k])
    decreases |notes|
  {
    if notes != [] {
      StopEventsArePlayingNotes(g, notes[..|notes| - 1]);
    }
  }

  /** After a stop no note is playing, the notes that were not playing are untouched,
      and only the playing flag changes. */
  lemma StopSilences(notes: seq<Note>)
    ensures forall k :: 0 <= k < |notes| ==> !StopNotes(notes)[k].isPlaying
    ensures forall k :: 0 <= k < |notes| ==> !notes[k].isPlaying ==> StopNotes(notes)[k] == notes[k]
    ensures forall k :: 0 <= k < |notes| ==> StopNotes(notes)[k].(isPlaying := notes[k].isPlaying) == notes[k]
  {
  }

  /** A list with no playing note produces no Note-Off on a stop. */
  lemma {:induction false} NothingPlayingNothingSent(g: nat, notes: seq<Note>)
    requires forall k :: 0 <= k < |notes| ==> !notes[k].isPlaying
    ensures StopEvents(g, notes) == []
    decreases |notes|
  {
    if notes != [] {
      NothingPlayingNothingSent(g, notes[..|notes| - 1]);
    }
  }

  /** Stopping twice is stopping once: the second stop sends nothing and changes
      nothing. */
  lemma StopIdempotent(g: nat, notes: seq<Note>)
    ensures StopEvents(g, StopNotes(notes)) == []
    ensures StopNotes(StopNotes(notes)) == StopNotes(notes)
  {
    StopSilences(notes);
    NothingPlayingNothingSent(g, StopNotes(notes));
  }

  // ---------------------------------------------------------------------------
  // Patterns

  function UpdateSequences(ss: seq<NoteSequence>, cur: nat): (r: seq<NoteSequence>)
    ensures |r| == |ss|
  {
    seq(|ss|, i requires 0 <= i < |ss| => ss[i].(notes := UpdateNotes(ss[i].notes, cur)))
  }

  /** The calls of `Pattern::update`: the sequences' calls, sequence after sequence. */
  function SequencesUpdateEvents(ss: seq<NoteSequence>, cur: nat): seq<Event>
    decreases |ss|
  {
    if ss == [] then []
    else
      var s := ss[|ss| - 1];
      SequencesUpdateEvents(ss[..|ss| - 1], cur) + UpdateEvents(s.generator, s.notes, cur)
  }

  function StopSequences(ss: seq<NoteSequence>): (r: seq<NoteSequence>)
    ensures |r| == |ss|
  {
    seq(|ss|, i requires 0 <= i < |ss| => ss[i].(notes := StopNotes(ss[i].notes)))
  }

  /** The calls of `Pattern::stop` and of `Pattern::pause`. */
  function SequencesStopEvents(ss: seq<NoteSequence>): seq<Event>
    decreases |ss|
  {
    if ss == [] then []
    else
      var s := ss[|ss| - 1];
      SequencesStopEvents(ss[..|ss| - 1]) + StopEvents(s.generator, s.notes)
  }

  /** `Pattern::update`: every sequence is updated at the same sample, in order. */
  method UpdatePattern(p: Pattern, cur: nat) returns (p': Pattern, events: seq<Event>)
    ensures p' == p.(sequences := UpdateSequences(p.sequences, cur))
    ensures events == SequencesUpdateEvents(p.sequences, cur)
  {
    var ss := p.sequences;
    events := [];
    var i := 0;
    while i < |ss|
      invariant 0 <= i <= |ss| == |p.sequences|
      invariant forall k :: 0 <= k < i ==> ss[k] == p.sequences[k].(notes := UpdateNotes(p.sequences[k].notes, cur))
      invariant forall k :: i <= k < |ss| ==> ss[k] == p.sequences[k]
      invariant events == SequencesUpdateEvents(p.sequences[..i], cur)
    {
      var s', e := UpdateSequence(ss[i], cur);
      ss := ss[i := s'];
      events := events + e;
      assert p.sequences[..i + 1][..i] == p.sequences[..i];
      i := i + 1;
    }
    assert p.sequences[..i] == p.sequences;
    p' := p.(sequences := ss);
  }

  /** `Pattern::stop`: every playing note gets a Note-Off on its sequence's generator
      and stops playing. */
  method StopPattern(p: Pattern) returns (p': Pattern, events: seq<Event>)
    ensures p' == p.(sequences := StopSequences(p.sequences))
    ensures events == SequencesStopEvents(p.sequences)
  {
    var ss := p.sequences;
    events := [];
    var i := 0;
    while i < |ss|
      invariant 0 <= i <= |ss| == |p.sequences|
      invariant forall k :: 0 <= k < i ==> ss[k] == p.sequences[k].(notes := StopNotes(p.sequences[k].notes))
      invariant forall k :: i <= k < |ss| ==> ss[k] == p.sequences[k]
      invariant events == SequencesStopEvents(p.sequences[..i])
    {
      var sequence := ss[i];
      var notes, offs := StopSequence(sequence.generator, sequence.notes);
      events := events + offs;
      ss := ss[i := sequence.(notes := notes)];
      assert p.sequences[..i + 1][..i] == p.sequences[..i];
      i := i + 1;
    }
    assert p.sequences[..i] == p.sequences;
    p' := p.(sequences := ss);
  }

  /** The inner loop of `Pattern::stop` over one sequence's notes, sent to generator `g`. */
  method StopSequence(g: nat, notes: seq<Note>) returns (notes': seq<Note>, events: seq<Event>)
    ensures notes' == StopNotes(notes)
    ensures events == StopEvents(g, notes)
  {
    notes' := notes;
    events := [];
    var j := 0;
    while j < |notes|
      invariant 0 <= j <= |notes| == |notes'|
      invariant forall k :: 0 <= k < j ==> notes'[k] == notes[k].(isPlaying := false)
      invariant forall k :: j <= k < |notes| ==> notes'[k] == notes[k]
      invariant events == StopEvents(g, notes[..j])
    {
      var note := notes'[j];
      if note.isPlaying {
        events := events + [Event(g, Off, note)];
        notes' := notes'[j := note.(isPlaying := false)];
      }
      assert notes[..j + 1][..j] == notes[..j];
      j := j + 1;
    }
    assert notes[..j] == notes;
  }

  /** `Pattern::pause`: the same Note-Offs as a stop, but no playing flag changes, so
      the pattern itself is left as it is. */
  method PausePattern(p: Pattern) returns (events: seq<Event>)
    ensures events == SequencesStopEvents(p.sequences)
  {
    events := [];
    var i := 0;
    while i < |p.sequences|
      invariant 0 <= i <= |p.sequences|
      invariant events == SequencesStopEvents(p.sequences[..i])
    {
      var sequence := p.sequences[i];
      ghost var before := events;
      var j := 0;
      while j < |sequence.notes|
        invariant 0 <= j <= |sequence.notes|
        invariant events == before + StopEvents(sequence.generator, sequence.notes[..j])
      {
        var note := sequence.notes[j];
        if note.isPlaying {
          events := events + [Event(sequence.generator, Off, note)];
        }
        assert sequence.notes[..j + 1][..j] == sequence.notes[..j];
        j := j + 1;
      }
      assert sequence.notes[..j] == sequence.notes;
      assert p.sequences[..i + 1][..i] == p.sequences[..i];
      i := i + 1;
    }
    assert p.sequences[..i] == p.sequences;
  }

  /** After a pattern stop no note of the pattern is playing, and a second stop sends
      nothing. */
  lemma {:induction false} PatternStopIdempotent(ss: seq<NoteSequence>)
    ensures forall i, k :: 0 <= i < |ss| && 0 <= k < |ss[i].notes| ==> !StopSequences(ss)[i].notes[k].isPlaying
    ensures SequencesStopEvents(StopSequences(ss)) == []
    ensures StopSequences(StopSequences(ss)) == StopSequences(ss)
    decreases |ss|
  {
    if ss != [] {
      var last := |ss| - 1;
      PatternStopIdempotent(ss[..last]);
      assert StopSequences(ss)[..last] == StopSequences(ss[..last]);
      StopIdempotent(ss[last].generator, ss[last].notes);
    }
    forall i | 0 <= i < |ss|
      ensures forall k :: 0 <= k < |ss[i].notes| ==> !StopSequences(ss)[i].notes[k].isPlaying
    {
      StopSilences(ss[i].notes);
    }
  }
}
