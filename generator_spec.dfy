/** What one `WaveformGenerator::Process` call computes, as functions of the
    generator's state before the call: the voices created by the drained Note-Ons,
    the releases forced by the drained Note-Offs, the per-frame rendering into the
    mix buffer, and the removal of killed voices. */
module GeneratorSpec {
  import opened Definitions
  import opened AudioMath
  import opened Piano
  import opened Envelope

  /** Numerics the model does not interpret: the C library's sine, arcsine and
      `std::pow(2, x)`, the noise table filled by `init_noise`, and the successive
      values of `rand() / RAND_MAX`, one stream shared by every generator. */
  datatype Externals = Externals(trig: Trig, pow2: real -> real, noise: seq<real>, random: nat -> real)

  predicate ValidExternals(ext: Externals)
  {
    |ext.noise| == NoiseSamples
  }

  /** The generator parameters read when a Note-On is drained. */
  datatype Settings = Settings(
    attack: real,
    decay: real,
    sustain: real,
    release: real,
    unison: int,
    phaseRandomization: real)

  /** Envelope durations are converted with an unsigned cast, so they must not be negative. */
  predicate ValidSettings(s: Settings)
  {
    s.attack >= 0.0 && s.decay >= 0.0 && s.release >= 0.0
  }

  /** `static_cast<uint64_t>(seconds * SAMPLE_RATE)` for a non-negative duration. */
  function SecondsToSamples(seconds: real): (n: nat)
    requires seconds >= 0.0
    ensures n as real <= seconds * SampleRate as real < n as real + 1.0
  {
    (seconds * SampleRate as real).Floor
  }

  /** The number of passes of `for (int i = 0; i < unison; ++i)`. */
  function UnisonCount(unison: int): (n: nat)
    ensures n == 0 <==> unison <= 0
    ensures unison > 0 ==> n == unison
  {
    if unison > 0 then unison else 0
  }

  /** The stereo position of unison voice `i`: centred for a single voice, otherwise
      spread evenly from hard left to hard right. */
  function UnisonPan(i: nat, unison: int): real
  {
    if unison > 1 then (i as real / (unison - 1) as real) * 2.0 - 1.0 else 0.0
  }

  /** The unison pans span [-1, 1] evenly: the first voice is hard left, the last hard
      right, mirrored voices have opposite pans, and neighbours are equally spaced. */
  lemma UnisonPanSpread(i: nat, unison: int)
    requires i < unison
    ensures -1.0 <= UnisonPan(i, unison) <= 1.0
    ensures unison == 1 ==> UnisonPan(i, unison) == 0.0
    ensures unison > 1 && i == 0 ==> UnisonPan(i, unison) == -1.0
    ensures unison > 1 && i == unison - 1 ==> UnisonPan(i, unison) == 1.0
    ensures UnisonPan(unison - 1 - i, unison) == -UnisonPan(i, unison)
    ensures i + 1 < unison ==>
      UnisonPan(i + 1, unison) - UnisonPan(i, unison) == 2.0 / (unison - 1) as real
  {
    if unison > 1 {
      var d := (unison - 1) as real;
      assert i as real / d <= 1.0 by { assert i as real <= d; }
      assert (unison - 1 - i) as real / d == 1.0 - i as real / d;
      if i + 1 < unison {
        assert (i + 1) as real / d == i as real / d + 1.0 / d;
      }
    }
  }

  /** The detune of unison voice `i` in cents: half a cent per step away from the centre. */
  function DetuneCents(i: nat, unison: int): real
  {
    (i as real - (unison - 1) as real / 2.0) * 0.5
  }

  /** The detune is symmetric around the base frequency. */
  lemma DetuneSymmetric(i: nat, unison: int)
    requires i < unison
    ensures DetuneCents(unison - 1 - i, unison) == -DetuneCents(i, unison)
  {
  }

  /** Unison voice `i` of a drained Note-On, `draw` being the `rand() / RAND_MAX` value
      it would use for its phase. */
  function NewVoice(n: Note, i: nat, sample: nat, s: Settings, ext: Externals, draw: real): (v: Voice)
    requires ValidSettings(s) && i < s.unison
    ensures v.id == n.noteNumber && v.creationTime == sample
    ensures v.amplitude * s.unison as real * 127.0 == n.velocity as real
    ensures v.pan == UnisonPan(i, s.unison)
    ensures v.envelope.state == Attack
    ensures v.envelope.attackTime == SecondsToSamples(s.attack)
    ensures v.envelope.decayTime == SecondsToSamples(s.decay)
    ensures v.envelope.releaseTime == SecondsToSamples(s.release)
    ensures v.envelope.sustainLevel == s.sustain
    ensures v.envelope.currentAmplitude == 0.0 && v.envelope.releaseStartAmplitude == 0.0
    ensures s.phaseRandomization <= 0.0 ==> v.phase == 0.0
    ensures s.phaseRandomization > 0.0 ==> v.phase == draw * s.phaseRandomization
    ensures v.frequency == MidiToFrequency(n.noteNumber, ext.pow2) * ext.pow2(DetuneCents(i, s.unison) / 1200.0)
    ensures v.detune == 0.0
  {
    var frequency := MidiToFrequency(n.noteNumber, ext.pow2);
    var amplitude := n.velocity as real / 127.0;
    var ratio := ext.pow2(DetuneCents(i, s.unison) / 1200.0);
    var phase := if s.phaseRandomization > 0.0 then draw * s.phaseRandomization else 0.0;
    var env := Envelope(Attack,
      SecondsToSamples(s.attack), 0.5,
      SecondsToSamples(s.decay), 0.5,
      s.sustain,
      SecondsToSamples(s.release), 0.5,
      0.0, 0.0);
    Voice(frequency * ratio, amplitude / s.unison as real, 0.0, phase, UnisonPan(i, s.unison), n.noteNumber, sample, env)
  }

  /** Without phase randomisation the draw plays no part. */
  lemma DrawUnused(n: Note, i: nat, sample: nat, s: Settings, ext: Externals, d1: real, d2: real)
    requires ValidSettings(s) && i < s.unison
    requires s.phaseRandomization > 0.0 ==> d1 == d2
    ensures NewVoice(n, i, sample, s, ext, d1) == NewVoice(n, i, sample, s, ext, d2)
  {
  }

  /** The voices one drained Note-On appends, in unison order; `first` is the
      position in the random stream of its first draw. */
  function Unison(n: Note, sample: nat, s: Settings, ext: Externals, first: nat): (vs: seq<Voice>)
    requires ValidSettings(s)
    ensures |vs| == UnisonCount(s.unison)
  {
    seq(UnisonCount(s.unison), i requires 0 <= i < UnisonCount(s.unison) =>
      NewVoice(n, i, sample, s, ext, ext.random(first + i)))
  }

  lemma UnisonAt(n: Note, sample: nat, s: Settings, ext: Externals, first: nat, i: nat)
    requires ValidSettings(s) && i < UnisonCount(s.unison)
    ensures Unison(n, sample, s, ext, first)[i] == NewVoice(n, i, sample, s, ext, ext.random(first + i))
  {
  }

  /** The voices appended by draining the Note-On queue `q`, note after note, when
      the random stream has already given `from` values. */
  function Spawned(q: seq<Note>, sample: nat, s: Settings, ext: Externals, from: nat): (vs: seq<Voice>)
    requires ValidSettings(s)
    decreases |q|
  {
    if q == [] then []
    else
      Spawned(q[..|q| - 1], sample, s, ext, from)
        + Unison(q[|q| - 1], sample, s, ext, from + (|q| - 1) * UnisonCount(s.unison))
  }

  /** Draining one more Note-On appends its unison voices, numbered after the draws of
      the notes before it. */
  lemma SpawnedNext(q: seq<Note>, k: nat, sample: nat, s: Settings, ext: Externals, from: nat, first: nat)
    requires ValidSettings(s) && k < |q| && first == from + k * UnisonCount(s.unison)
    ensures Spawned(q[..k + 1], sample, s, ext, from)
      == Spawned(q[..k], sample, s, ext, from) + Unison(q[k], sample, s, ext, first)
    ensures first + UnisonCount(s.unison) == from + (k + 1) * UnisonCount(s.unison)
  {
    assert q[..k + 1][..k] == q[..k];
  }

  /** Each drained Note-On contributes exactly `unison` voices. */
  lemma {:induction false} SpawnedLength(q: seq<Note>, sample: nat, s: Settings, ext: Externals, from: nat)
    requires ValidSettings(s)
    ensures |Spawned(q, sample, s, ext, from)| == |q| * UnisonCount(s.unison)
    decreases |q|
  {
    if q != [] {
      SpawnedLength(q[..|q| - 1], sample, s, ext, from);
    }
  }

  lemma ProductFits(f: nat, n: nat, c: nat)
    requires f < n
    ensures 0 <= f * c && f * c + c <= n * c
  {
    if c > 0 {
      MultipleAtLeast(c, n - f);
      assert c * (n - f) == n * c - f * c;
    }
  }

  /** Voice `i` of Note-On `k` sits at position `k * unison + i` of the appended voices,
      so the voices follow queue order and, within a note, unison order. */
  lemma {:induction false} SpawnedVoice(q: seq<Note>, sample: nat, s: Settings, ext: Externals, from: nat,
                                        k: nat, i: nat)
    requires ValidSettings(s) && k < |q| && i < s.unison
    ensures k * s.unison + i < |Spawned(q, sample, s, ext, from)|
    ensures Spawned(q, sample, s, ext, from)[k * s.unison + i]
      == NewVoice(q[k], i, sample, s, ext, ext.random(from + k * s.unison + i))
    decreases |q|
  {
    var last := |q| - 1;
    var u := s.unison;
    SpawnedLength(q[..last], sample, s, ext, from);
    SpawnedLength(q, sample, s, ext, from);
    ProductFits(k, |q|, u);
    if k < last {
      SpawnedVoice(q[..last], sample, s, ext, from, k, i);
      ProductFits(k, last, u);
    } else {
      assert k * u + i == last * u + i;
    }
  }

  /** The sum of the amplitudes of some voices. */
  function AmplitudeSum(vs: seq<Voice>): real
    decreases |vs|
  {
    if vs == [] then 0.0 else AmplitudeSum(vs[..|vs| - 1]) + vs[|vs| - 1].amplitude
  }

  /** The unison voices of a note share its velocity: their amplitudes add up to
      velocity / 127 whatever the unison count. */
  lemma UnisonNormalised(n: Note, sample: nat, s: Settings, ext: Externals, first: nat)
    requires ValidSettings(s) && s.unison >= 1
    ensures AmplitudeSum(Unison(n, sample, s, ext, first)) == n.velocity as real / 127.0
  {
    var vs := Unison(n, sample, s, ext, first);
    var u := s.unison as real;
    var a := n.velocity as real / (u * 127.0);
    forall j | 0 <= j < |vs| ensures vs[j].amplitude == a {
      UnisonAmplitude(n, sample, s, ext, first, j);
    }
    EqualAmplitudes(vs, a);
    assert |vs| as real == u;
    Share(u, n.velocity as real);
  }

  lemma UnisonAmplitude(n: Note, sample: nat, s: Settings, ext: Externals, first: nat, j: nat)
    requires ValidSettings(s) && j < UnisonCount(s.unison)
    ensures Unison(n, sample, s, ext, first)[j].amplitude == n.velocity as real / (s.unison as real * 127.0)
  {
    var v := NewVoice(n, j, sample, s, ext, ext.random(first + j));
    Quotient(v.amplitude, s.unison as real * 127.0, n.velocity as real);
  }

  lemma Quotient(x: real, y: real, z: real)
    requires y != 0.0 && x * y == z
    ensures x == z / y
  {
  }

  lemma Share(u: real, x: real)
    requires u > 0.0
    ensures u * (x / (u * 127.0)) == x / 127.0
  {
  }

  lemma {:induction false} EqualAmplitudes(vs: seq<Voice>, a: real)
    requires forall j :: 0 <= j < |vs| ==> vs[j].amplitude == a
    ensures AmplitudeSum(vs) == |vs| as real * a
    decreases |vs|
  {
    if vs != [] {
      EqualAmplitudes(vs[..|vs| - 1], a);
    }
  }

  /** A voice forced into Release by a Note-Off drained at `sample`: the envelope
      captures its current amplitude and the release is timed from `sample`. */
  function ReleaseVoice(v: Voice, sample: nat): (r: Voice)
    ensures r.creationTime == sample
    ensures r.envelope.state == Release
    ensures r.envelope.releaseStartAmplitude == v.envelope.currentAmplitude
    ensures r == v.(creationTime := sample, envelope := r.envelope)
    ensures r.envelope == v.envelope.(state := Release, releaseStartAmplitude := v.envelope.currentAmplitude)
  {
    v.(envelope := EnterRelease(v.envelope.(state := Release)), creationTime := sample)
  }

  /** Releasing twice at the same sample is releasing once. */
  lemma ReleaseVoiceIdempotent(v: Voice, sample: nat)
    ensures ReleaseVoice(ReleaseVoice(v, sample), sample) == ReleaseVoice(v, sample)
  {
  }

  /** One drained Note-Off: every voice with the note's number is released. */
  function ReleaseMatching(vs: seq<Voice>, id: int, sample: nat): (r: seq<Voice>)
    ensures |r| == |vs|
  {
    seq(|vs|, j requires 0 <= j < |vs| => if vs[j].id == id then ReleaseVoice(vs[j], sample) else vs[j])
  }

  /** The Note-Off queue `offs` drained in order. */
  function ReleaseAll(vs: seq<Voice>, offs: seq<Note>, sample: nat): (r: seq<Voice>)
    ensures |r| == |vs|
    decreases |offs|
  {
    if offs == [] then vs
    else ReleaseMatching(ReleaseAll(vs, offs[..|offs| - 1], sample), offs[|offs| - 1].noteNumber, sample)
  }

  /** The note numbers in a queue. */
  function NoteNumbers(q: seq<Note>): set<int>
  {
    set k | 0 <= k < |q| :: q[k].noteNumber
  }

  /** Draining the Note-Off queue releases exactly the voices whose number occurs in it,
      each once as if by a single Note-Off; voices with no matching Note-Off are kept
      as they were (so a Note-Off that matches nothing changes nothing). */
  lemma {:induction false} ReleaseAllMatches(vs: seq<Voice>, offs: seq<Note>, sample: nat, j: nat)
    requires j < |vs|
    ensures ReleaseAll(vs, offs, sample)[j]
      == if vs[j].id in NoteNumbers(offs) then ReleaseVoice(vs[j], sample) else vs[j]
    decreases |offs|
  {
    if offs != [] {
      var init := offs[..|offs| - 1];
      ReleaseAllMatches(vs, init, sample, j);
      assert NoteNumbers(offs) == NoteNumbers(init) + {offs[|offs| - 1].noteNumber} by {
        forall x | x in NoteNumbers(offs) ensures x in NoteNumbers(init) + {offs[|offs| - 1].noteNumber} {
          var k :| 0 <= k < |offs| && offs[k].noteNumber == x;
          if k < |offs| - 1 { assert init[k] == offs[k]; }
        }
        forall x | x in NoteNumbers(init) ensures x in NoteNumbers(offs) {
          var k :| 0 <= k < |init| && init[k].noteNumber == x;
          assert offs[k] == init[k];
        }
      }
      if vs[j].id in NoteNumbers(init) {
        ReleaseVoiceIdempotent(vs[j], sample);
      }
    }
  }

  /** The voices after both drains: new voices first, then the releases. */
  function Drained(vs: seq<Voice>, ons: seq<Note>, offs: seq<Note>, sample: nat, s: Settings, ext: Externals,
                   from: nat): seq<Voice>
    requires ValidSettings(s)
  {
    ReleaseAll(vs + Spawned(ons, sample, s, ext, from), offs, sample)
  }

  /** One Note-On's unison voices read the random stream only at their own draws
      `first .. first + unison - 1`, and only with phase randomisation on. */
  lemma UnisonReadsOwnDraws(n: Note, sample: nat, s: Settings, e1: Externals, e2: Externals, first: nat)
    requires ValidSettings(s) && e1.pow2 == e2.pow2
    requires s.phaseRandomization > 0.0 ==>
      forall i: nat :: first <= i < first + UnisonCount(s.unison) ==> e1.random(i) == e2.random(i)
    ensures Unison(n, sample, s, e1, first) == Unison(n, sample, s, e2, first)
  {
    forall j | 0 <= j < UnisonCount(s.unison)
      ensures Unison(n, sample, s, e1, first)[j] == Unison(n, sample, s, e2, first)[j]
    {
      UnisonAt(n, sample, s, e1, first, j);
      UnisonAt(n, sample, s, e2, first, j);
      var d1, d2 := e1.random(first + j), e2.random(first + j);
      NewVoiceReadsPow(n, j, sample, s, e1, e2, d1);
      DrawUnused(n, j, sample, s, e2, d1, d2);
    }
  }

  /** Of the externals, a new voice reads only `pow`. */
  lemma NewVoiceReadsPow(n: Note, i: nat, sample: nat, s: Settings, e1: Externals, e2: Externals, draw: real)
    requires ValidSettings(s) && i < s.unison && e1.pow2 == e2.pow2
    ensures NewVoice(n, i, sample, s, e1, draw) == NewVoice(n, i, sample, s, e2, draw)
  {
  }

  /** Draining a Note-On queue from stream position `from` reads the random stream only
      at the |q| · unison draws `from ..`, and only with phase randomisation on: two
      externals that agree there (and on `pow`) spawn the same voices. */
  lemma {:induction false} SpawnedReadsOwnDraws(q: seq<Note>, sample: nat, s: Settings, e1: Externals, e2: Externals,
                                                from: nat)
    requires ValidSettings(s) && e1.pow2 == e2.pow2
    requires s.phaseRandomization > 0.0 ==>
      forall i: nat :: from <= i < from + |q| * UnisonCount(s.unison) ==> e1.random(i) == e2.random(i)
    ensures Spawned(q, sample, s, e1, from) == Spawned(q, sample, s, e2, from)
    decreases |q|
  {
    if q != [] {
      var m := |q| - 1;
      var u := UnisonCount(s.unison);
      assert |q| * u == m * u + u;
      SpawnedReadsOwnDraws(q[..m], sample, s, e1, e2, from);
      UnisonReadsOwnDraws(q[m], sample, s, e1, e2, from + m * u);
    }
  }

  /** Because Note-Ons are drained before Note-Offs, a note switched on and off within
      one cycle yields voices that are already in Release, timed from this cycle. */
  lemma OnThenOffReleased(vs: seq<Voice>, ons: seq<Note>, offs: seq<Note>, sample: nat, s: Settings,
                          ext: Externals, from: nat, k: nat, i: nat, o: nat)
    requires ValidSettings(s) && k < |ons| && i < s.unison && o < |offs|
    requires offs[o].noteNumber == ons[k].noteNumber
    ensures |vs| + k * s.unison + i < |Drained(vs, ons, offs, sample, s, ext, from)|
    ensures var v := Drained(vs, ons, offs, sample, s, ext, from)[|vs| + k * s.unison + i];
      v.envelope.state == Release && v.creationTime == sample && v.id == ons[k].noteNumber
  {
    var spawned := Spawned(ons, sample, s, ext, from);
    SpawnedVoice(ons, sample, s, ext, from, k, i);
    var j := |vs| + k * s.unison + i;
    assert (vs + spawned)[j] == spawned[k * s.unison + i];
    assert offs[o].noteNumber in NoteNumbers(offs);
    ReleaseAllMatches(vs + spawned, offs, sample, j);
  }

  /** The generator-level values read while rendering. */
  datatype Voicing = Voicing(waveform: Waveform, volume: real, pan: real)

  /** Every voice can be processed at sample `c`. */
  predicate AllTimely(vs: seq<Voice>, c: nat)
  {
    forall j :: 0 <= j < |vs| ==> Timely(vs[j].envelope, c, vs[j].creationTime)
  }

  lemma AllTimelyLater(vs: seq<Voice>, c: nat, later: nat)
    requires AllTimely(vs, c) && c <= later
    ensures AllTimely(vs, later)
  {
    forall j | 0 <= j < |vs| ensures Timely(vs[j].envelope, later, vs[j].creationTime) {
      TimelyLater(vs[j].envelope, c, later, vs[j].creationTime);
    }
  }

  /** The phase advance of one sample at `frequency`, wrapped back by one turn when it
      reaches a full turn. */
  function AdvancePhase(phase: real, frequency: real): real
  {
    var advanced := phase + TwoPi * frequency / SampleRate as real;
    if advanced >= TwoPi then advanced - TwoPi else advanced
  }

  /** A phase inside one turn stays inside one turn as long as the frequency is between
      0 and the sample rate. */
  lemma PhaseStaysInTurn(phase: real, frequency: real)
    requires 0.0 <= phase < TwoPi && 0.0 <= frequency <= SampleRate as real
    ensures 0.0 <= AdvancePhase(phase, frequency) < TwoPi
  {
    assert TwoPi * frequency / SampleRate as real <= TwoPi;
  }

  /** One voice at one frame: the advanced voice, the envelope gain applied to its
      sample and whether the envelope asked for the voice to be removed. */
  datatype Tick = Tick(voice: Voice, gain: real, kill: bool)

  /** The voice part of the frame loop's body: the phase advance and one envelope step.
      Only the phase and the envelope change, and the voice is marked exactly when it is
      in Release and its release has run out. */
  function VoiceTick(v: Voice, sample: nat): (t: Tick)
    requires Timely(v.envelope, sample, v.creationTime)
    ensures t.voice == v.(phase := t.voice.phase, envelope := t.voice.envelope)
    ensures t.voice.envelope == Process(v.envelope, sample, v.creationTime, false).env
    ensures t.gain == Process(v.envelope, sample, v.creationTime, false).gain
    ensures t.kill <==> v.envelope.state == Release && sample >= v.creationTime + v.envelope.releaseTime
    ensures Timely(t.voice.envelope, sample, t.voice.creationTime)
  {
    var step := Process(v.envelope, sample, v.creationTime, false);
    Tick(v.(phase := AdvancePhase(v.phase, v.frequency), envelope := step.env), step.gain, step.kill)
  }

  /** The sample one voice adds to the frame: the waveform at the advanced phase scaled
      by the voice amplitude, the generator volume and the envelope gain, panned by the
      voice's pan and then by the generator's. */
  function VoiceOut(v: Voice, sample: nat, m: Voicing, ext: Externals): Stereo
    requires Timely(v.envelope, sample, v.creationTime) && ValidExternals(ext)
  {
    var t := VoiceTick(v, sample);
    var s := GenerateWaveform(m.waveform, t.voice.phase, ext.trig, ext.noise) * v.amplitude * m.volume * t.gain;
    Pan(Pan(Stereo(s, s), v.pan), m.pan)
  }

  /** A voice whose release has run out adds silence to the frame in which it is marked. */
  lemma ExpiredVoiceSilent(v: Voice, sample: nat, m: Voicing, ext: Externals)
    requires Timely(v.envelope, sample, v.creationTime) && ValidExternals(ext)
    requires v.envelope.state == Release && sample >= v.creationTime + v.envelope.releaseTime
    ensures VoiceOut(v, sample, m, ext) == Stereo(0.0, 0.0)
  {
    ReleaseGain(v.envelope, sample, v.creationTime, false);
  }

  /** The contributions of all voices at one frame, in vector order. */
  function FrameOuts(vs: seq<Voice>, sample: nat, m: Voicing, ext: Externals): (outs: seq<Stereo>)
    requires AllTimely(vs, sample) && ValidExternals(ext)
    ensures |outs| == |vs|
  {
    seq(|vs|, j requires 0 <= j < |vs| => VoiceOut(vs[j], sample, m, ext))
  }

  lemma FrameOutsAt(vs: seq<Voice>, sample: nat, m: Voicing, ext: Externals, j: nat)
    requires AllTimely(vs, sample) && ValidExternals(ext) && j < |vs|
    ensures FrameOuts(vs, sample, m, ext)[j] == VoiceOut(vs[j], sample, m, ext)
  {
  }

  /** Accumulating one contribution into the interleaved buffer at `idx`: the left
      sample into the first channel and, with more than one channel, the right sample
      into the second. */
  function AddOut(buf: seq<real>, out: Stereo, idx: nat, channels: nat): (r: seq<real>)
    requires idx < |buf| && (channels > 1 ==> idx + 1 < |buf|)
    ensures |r| == |buf|
  {
    var b := buf[idx := buf[idx] + out.left];
    if channels > 1 then b[idx + 1 := b[idx + 1] + out.right] else b
  }

  /** Accumulating the contributions of a whole frame, voice after voice. */
  function MixOuts(buf: seq<real>, outs: seq<Stereo>, idx: nat, channels: nat): (r: seq<real>)
    requires idx < |buf| && (channels > 1 ==> idx + 1 < |buf|)
    ensures |r| == |buf|
    decreases |outs|
  {
    if outs == [] then buf
    else AddOut(MixOuts(buf, outs[..|outs| - 1], idx, channels), outs[|outs| - 1], idx, channels)
  }

  /** One more voice of the frame mixed in. */
  lemma MixOutsNext(buf: seq<real>, outs: seq<Stereo>, idx: nat, channels: nat, j: nat,
                    mixed: seq<real>, mixed': seq<real>)
    requires idx < |buf| && (channels > 1 ==> idx + 1 < |buf|) && j < |outs|
    requires mixed == MixOuts(buf, outs[..j], idx, channels)
    requires mixed' == AddOut(mixed, outs[j], idx, channels)
    ensures mixed' == MixOuts(buf, outs[..j + 1], idx, channels)
  {
    assert outs[..j + 1][..j] == outs[..j];
  }

  /** The sum of the left or right samples of some contributions. */
  function SumLeft(outs: seq<Stereo>): real
    decreases |outs|
  {
    if outs == [] then 0.0 else SumLeft(outs[..|outs| - 1]) + outs[|outs| - 1].left
  }

  function SumRight(outs: seq<Stereo>): real
    decreases |outs|
  {
    if outs == [] then 0.0 else SumRight(outs[..|outs| - 1]) + outs[|outs| - 1].right
  }

  /** Mixing adds up the contributions: the frame's first entry grows by the sum of the
      left samples, its second (with more than one channel) by the sum of the right
      samples, and no other entry changes. */
  lemma {:induction false} MixOutsSums(buf: seq<real>, outs: seq<Stereo>, idx: nat, channels: nat)
    requires idx < |buf| && (channels > 1 ==> idx + 1 < |buf|)
    ensures MixOuts(buf, outs, idx, channels)[idx] == buf[idx] + SumLeft(outs)
    ensures channels > 1 ==> MixOuts(buf, outs, idx, channels)[idx + 1] == buf[idx + 1] + SumRight(outs)
    ensures forall k :: 0 <= k < |buf| && k != idx && (channels > 1 ==> k != idx + 1) ==>
      MixOuts(buf, outs, idx, channels)[k] == buf[k]
    decreases |outs|
  {
    if outs != [] {
      MixOutsSums(buf, outs[..|outs| - 1], idx, channels);
    }
  }

  /** The index of the first buffer entry of frame `f` when frames are `channels`
      entries wide, that is `f * channels`, built up one frame at a time. */
  function FrameOffset(f: nat, channels: nat): (o: nat)
    decreases f
  {
    if f == 0 then 0 else FrameOffset(f - 1, channels) + channels
  }

  lemma {:induction false} FrameOffsetIsProduct(f: nat, channels: nat)
    ensures FrameOffset(f, channels) == f * channels
    decreases f
  {
    if f > 0 {
      FrameOffsetIsProduct(f - 1, channels);
      assert f * channels == (f - 1) * channels + channels;
    }
  }

  /** `f < g` frames start at least one whole frame apart. */
  lemma {:induction false} FrameOffsetIncreasing(f: nat, g: nat, channels: nat)
    requires f < g
    ensures FrameOffset(f, channels) + channels <= FrameOffset(g, channels)
    decreases g
  {
    if f + 1 < g {
      FrameOffsetIncreasing(f, g - 1, channels);
    }
  }

  /** The voices the frame loop carries and which of them are marked for removal. */
  datatype Playing = Playing(voices: seq<Voice>, killed: seq<bool>)

  predicate Matched(p: Playing)
  {
    |p.killed| == |p.voices|
  }

  /** The voices as they enter the frame loop: none is marked yet. */
  function Unmarked(vs: seq<Voice>): (p: Playing)
    ensures Matched(p) && p.voices == vs
    ensures forall j :: 0 <= j < |vs| ==> !p.killed[j]
  {
    Playing(vs, seq(|vs|, _ => false))
  }

  function TickedVoice(vs: seq<Voice>, sample: nat, j: nat): Voice
    requires AllTimely(vs, sample) && j < |vs|
  {
    VoiceTick(vs[j], sample).voice
  }

  function TickedMark(p: Playing, sample: nat, j: nat): bool
    requires Matched(p) && AllTimely(p.voices, sample) && j < |p.voices|
  {
    p.killed[j] || VoiceTick(p.voices[j], sample).kill
  }

  /** The voice side of one frame at sample `sample`: each voice is advanced, and a
      voice whose envelope asks for removal is marked. */
  function StepVoices(p: Playing, sample: nat): (p': Playing)
    requires Matched(p) && AllTimely(p.voices, sample)
    ensures Matched(p') && |p'.voices| == |p.voices|
    ensures AllTimely(p'.voices, sample)
  {
    var vs := p.voices;
    var p' := Playing(
      seq(|vs|, j requires 0 <= j < |vs| => TickedVoice(vs, sample, j)),
      seq(|vs|, j requires 0 <= j < |vs| => TickedMark(p, sample, j)));
    p'
  }

  lemma StepVoicesAt(p: Playing, sample: nat, j: nat)
    requires Matched(p) && AllTimely(p.voices, sample) && j < |p.voices|
    ensures StepVoices(p, sample).voices[j] == VoiceTick(p.voices[j], sample).voice
    ensures StepVoices(p, sample).killed[j] == (p.killed[j] || VoiceTick(p.voices[j], sample).kill)
  {
  }

  /** The voice side of the first `n` frames from sample `start`. */
  function RunVoices(p: Playing, n: nat, start: nat): (p': Playing)
    requires Matched(p) && AllTimely(p.voices, start)
    ensures Matched(p') && |p'.voices| == |p.voices|
    ensures AllTimely(p'.voices, start + n)
    decreases n
  {
    if n == 0 then p
    else
      var next := StepVoices(RunVoices(p, n - 1, start), start + (n - 1));
      AllTimelyLater(next.voices, start + (n - 1), start + n);
      next
  }

  /** Ticking every voice of the state reached after `n` frames gives the state after
      `n + 1` frames. */
  lemma RunVoicesNext(p: Playing, n: nat, start: nat, sample: nat, run: Playing, next: Playing)
    requires Matched(p) && AllTimely(p.voices, start) && sample == start + n
    requires run == RunVoices(p, n, start)
    requires Matched(run) && AllTimely(run.voices, sample) && next == StepVoices(run, sample)
    ensures next == RunVoices(p, n + 1, start)
  {
  }

  /** One frame keeps a voice's identity and reference time, keeps it in Release exactly
      when it was, keeps its release time, and marks it exactly when it was marked or
      its release has run out at the frame's sample. */
  lemma StepVoice(p: Playing, sample: nat, j: nat)
    requires Matched(p) && AllTimely(p.voices, sample) && j < |p.voices|
    ensures var v, v' := p.voices[j], StepVoices(p, sample).voices[j];
      (v'.envelope.state == Release <==> v.envelope.state == Release)
      && v'.envelope.releaseTime == v.envelope.releaseTime
      && v'.creationTime == v.creationTime && v'.id == v.id
    ensures StepVoices(p, sample).killed[j] <==> p.killed[j] || Expired(p.voices[j], sample)
  {
    var v := p.voices[j];
    assert VoiceTick(v, sample).voice.envelope == Process(v.envelope, sample, v.creationTime, false).env;
  }

  /** A voice keeps its note number and its reference time through the frames, it is
      in Release after them exactly when it was before them, and its release time is
      unchanged. */
  lemma {:induction false} VoiceKept(p: Playing, n: nat, start: nat, j: nat)
    requires Matched(p) && AllTimely(p.voices, start) && j < |p.voices|
    ensures var v, v' := p.voices[j], RunVoices(p, n, start).voices[j];
      (v'.envelope.state == Release <==> v.envelope.state == Release)
      && v'.envelope.releaseTime == v.envelope.releaseTime
      && v'.creationTime == v.creationTime && v'.id == v.id
    decreases n
  {
    if n > 0 {
      VoiceKept(p, n - 1, start, j);
      StepVoice(RunVoices(p, n - 1, start), start + (n - 1), j);
    }
  }

  /** A voice ends up marked for removal exactly when it was already marked or it was
      in Release and its release had run out by the last of the `n` samples. */
  lemma {:induction false} KilledExactly(p: Playing, n: nat, start: nat, j: nat)
    requires Matched(p) && AllTimely(p.voices, start) && j < |p.voices|
    ensures RunVoices(p, n, start).killed[j]
      <==> p.killed[j] || (n >= 1 && Expired(p.voices[j], start + n - 1))
    decreases n
  {
    if n > 0 {
      KilledExactly(p, n - 1, start, j);
      VoiceKept(p, n - 1, start, j);
      var prev := RunVoices(p, n - 1, start);
      StepVoice(prev, start + (n - 1), j);
      assert Expired(prev.voices[j], start + (n - 1)) == Expired(p.voices[j], start + (n - 1));
      if n > 1 {
        assert Expired(p.voices[j], start + (n - 2)) ==> Expired(p.voices[j], start + (n - 1));
      }
    }
  }

  /** The voice is in Release and its release has run out at sample `sample`. */
  predicate Expired(v: Voice, sample: nat)
  {
    v.envelope.state == Release && sample >= v.creationTime + v.envelope.releaseTime
  }

  /** The contributions of the frame `f` frames after `start`. */
  function FrameOutsAfter(p: Playing, f: nat, start: nat, m: Voicing, ext: Externals): seq<Stereo>
    requires Matched(p) && AllTimely(p.voices, start) && ValidExternals(ext)
  {
    FrameOuts(RunVoices(p, f, start).voices, start + f, m, ext)
  }

  /** The contributions of every frame of the cycle; frame `f` is rendered from the
      voices as the first `f` frames left them. */
  function CycleOuts(p: Playing, n: nat, start: nat, m: Voicing, ext: Externals): (outs: seq<seq<Stereo>>)
    requires Matched(p) && AllTimely(p.voices, start) && ValidExternals(ext)
    ensures |outs| == n
  {
    seq(n, f requires 0 <= f < n => FrameOutsAfter(p, f, start, m, ext))
  }

  /** Of the externals, the rendered frames read only the trigonometry and the noise
      table. */
  lemma CycleOutsReadTables(p: Playing, n: nat, start: nat, m: Voicing, e1: Externals, e2: Externals)
    requires Matched(p) && AllTimely(p.voices, start) && ValidExternals(e1)
    requires e1.trig == e2.trig && e1.noise == e2.noise
    ensures CycleOuts(p, n, start, m, e1) == CycleOuts(p, n, start, m, e2)
  {
    forall f | 0 <= f < n
      ensures CycleOuts(p, n, start, m, e1)[f] == CycleOuts(p, n, start, m, e2)[f]
    {
      FrameOutsReadTables(RunVoices(p, f, start).voices, start + f, m, e1, e2);
    }
  }

  /** Of the externals, one frame reads only the trigonometry and the noise table. */
  lemma FrameOutsReadTables(vs: seq<Voice>, sample: nat, m: Voicing, e1: Externals, e2: Externals)
    requires AllTimely(vs, sample) && ValidExternals(e1)
    requires e1.trig == e2.trig && e1.noise == e2.noise
    ensures FrameOuts(vs, sample, m, e1) == FrameOuts(vs, sample, m, e2)
  {
    assert ValidExternals(e2);
    forall j | 0 <= j < |vs|
      ensures FrameOuts(vs, sample, m, e1)[j] == FrameOuts(vs, sample, m, e2)[j]
    {
      FrameOutsAt(vs, sample, m, e1, j);
      FrameOutsAt(vs, sample, m, e2, j);
      VoiceOutReadsTables(vs[j], sample, m, e1, e2);
    }
  }

  lemma VoiceOutReadsTables(v: Voice, sample: nat, m: Voicing, e1: Externals, e2: Externals)
    requires Timely(v.envelope, sample, v.creationTime) && ValidExternals(e1)
    requires e1.trig == e2.trig && e1.noise == e2.noise
    ensures VoiceOut(v, sample, m, e1) == VoiceOut(v, sample, m, e2)
  {
    var phase := VoiceTick(v, sample).voice.phase;
    assert GenerateWaveform(m.waveform, phase, e1.trig, e1.noise) == GenerateWaveform(m.waveform, phase, e2.trig, e2.noise);
  }

  /** Mixing the contributions of successive frames into the interleaved buffer, frame
      `f` at `FrameOffset(f, channels)`. */
  function MixFrames(buf: seq<real>, outs: seq<seq<Stereo>>, channels: nat): (r: seq<real>)
    requires 1 <= channels && FrameOffset(|outs|, channels) <= |buf|
    ensures |r| == |buf|
    decreases |outs|
  {
    if outs == [] then buf
    else
      var f := |outs| - 1;
      MixOuts(MixFrames(buf, outs[..f], channels), outs[f], FrameOffset(f, channels), channels)
  }

  /** The contributions of frame `f` of a cycle. */
  lemma CycleOutsAt(p: Playing, n: nat, start: nat, m: Voicing, ext: Externals, f: nat, sample: nat, run: Playing)
    requires Matched(p) && AllTimely(p.voices, start) && ValidExternals(ext) && f < n && sample == start + f
    requires run == RunVoices(p, f, start)
    ensures AllTimely(run.voices, sample)
    ensures CycleOuts(p, n, start, m, ext)[f] == FrameOuts(run.voices, sample, m, ext)
  {
    assert CycleOuts(p, n, start, m, ext)[f] == FrameOutsAfter(p, f, start, m, ext);
  }

  /** Mixing one more frame into the buffer holding the first `f` frames gives the
      buffer holding the first `f + 1`. */
  lemma MixFramesNext(buf: seq<real>, outs: seq<seq<Stereo>>, channels: nat, f: nat,
                      mixed: seq<real>, frame: seq<Stereo>, mixed': seq<real>)
    requires 1 <= channels && f < |outs| && FrameOffset(f, channels) + channels <= |buf|
    requires mixed == MixFrames(buf, outs[..f], channels) && frame == outs[f]
    requires mixed' == MixOuts(mixed, frame, FrameOffset(f, channels), channels)
    ensures mixed' == MixFrames(buf, outs[..f + 1], channels)
  {
    assert outs[..f + 1][..f] == outs[..f];
  }

  /** Mixing frames leaves the buffer beyond the mixed frames untouched. */
  lemma {:induction false} MixFramesBeyond(buf: seq<real>, outs: seq<seq<Stereo>>, channels: nat, k: nat)
    requires 1 <= channels && FrameOffset(|outs|, channels) <= k < |buf|
    ensures MixFrames(buf, outs, channels)[k] == buf[k]
    decreases |outs|
  {
    if outs != [] {
      var f := |outs| - 1;
      MixFramesBeyond(buf, outs[..f], channels, k);
      MixOutsSums(MixFrames(buf, outs[..f], channels), outs[f], FrameOffset(f, channels), channels);
    }
  }

  /** Each mixed frame holds its old samples plus the sum of its voices' contributions:
      the left samples in its first entry and, with more than one channel, the right
      samples in its second; any further entries of the frame are left as they were. */
  lemma {:induction false} MixFramesFrame(buf: seq<real>, outs: seq<seq<Stereo>>, channels: nat, f: nat)
    requires 1 <= channels && FrameOffset(|outs|, channels) <= |buf| && f < |outs|
    ensures FrameOffset(f, channels) + channels <= FrameOffset(|outs|, channels)
    ensures var o := FrameOffset(f, channels);
      MixFrames(buf, outs, channels)[o] == buf[o] + SumLeft(outs[f])
      && (channels > 1 ==> MixFrames(buf, outs, channels)[o + 1] == buf[o + 1] + SumRight(outs[f]))
      && forall k :: o + 2 <= k < o + channels ==> MixFrames(buf, outs, channels)[k] == buf[k]
    decreases |outs|
  {
    var last := |outs| - 1;
    var prefix := outs[..last];
    var mixed := MixFrames(buf, prefix, channels);
    var o := FrameOffset(f, channels);
    var lo := FrameOffset(last, channels);
    FrameOffsetIncreasing(f, |outs|, channels);
    MixOutsSums(mixed, outs[last], lo, channels);
    if f < last {
      MixFramesFrame(buf, prefix, channels, f);
      FrameOffsetIncreasing(f, last, channels);
      assert prefix[f] == outs[f];
    } else {
      forall k | o <= k < o + channels
        ensures mixed[k] == buf[k]
      {
        MixFramesBeyond(buf, prefix, channels, k);
      }
    }
  }

  /** Indices of the voices not marked for removal, in increasing order: the voices
      `erase(remove_if(...))` keeps. */
  function SurvivorIndices(killed: seq<bool>): (idx: seq<nat>)
    ensures forall i :: 0 <= i < |idx| ==> idx[i] < |killed| && !killed[idx[i]]
    ensures forall i, i' :: 0 <= i < i' < |idx| ==> idx[i] < idx[i']
    ensures forall j :: 0 <= j < |killed| && !killed[j] ==> j in idx
    decreases |killed|
  {
    if killed == [] then []
    else
      var init := SurvivorIndices(killed[..|killed| - 1]);
      if killed[|killed| - 1] then init else init + [|killed| - 1]
  }

  /** The voices that remain after removal, in their original relative order. */
  function Survivors(vs: seq<Voice>, killed: seq<bool>): (r: seq<Voice>)
    requires |killed| == |vs|
    ensures |r| == |SurvivorIndices(killed)|
    ensures forall i :: 0 <= i < |r| ==> r[i] == vs[SurvivorIndices(killed)[i]]
  {
    var idx := SurvivorIndices(killed);
    seq(|idx|, i requires 0 <= i < |idx| => vs[idx[i]])
  }

  /** Removing voices keeps the rest timely. */
  lemma SurvivorsTimely(vs: seq<Voice>, killed: seq<bool>, c: nat)
    requires |killed| == |vs| && AllTimely(vs, c)
    ensures AllTimely(Survivors(vs, killed), c)
  {
  }

  /** The voices after the drains can all be processed from the cycle's first sample. */
  lemma DrainedTimely(vs: seq<Voice>, ons: seq<Note>, offs: seq<Note>, start: nat, s: Settings, ext: Externals,
                      from: nat)
    requires ValidSettings(s) && AllTimely(vs, start)
    ensures AllTimely(Drained(vs, ons, offs, start, s, ext, from), start)
  {
    var all := vs + Spawned(ons, start, s, ext, from);
    SpawnedTimely(ons, start, s, ext, from);
    assert AllTimely(all, start);
    forall j | 0 <= j < |all|
      ensures Timely(ReleaseAll(all, offs, start)[j].envelope, start, ReleaseAll(all, offs, start)[j].creationTime)
    {
      ReleaseAllMatches(all, offs, start, j);
    }
  }

  lemma {:induction false} SpawnedTimely(q: seq<Note>, sample: nat, s: Settings, ext: Externals, from: nat)
    requires ValidSettings(s)
    ensures AllTimely(Spawned(q, sample, s, ext, from), sample)
    decreases |q|
  {
    if q != [] {
      var first := from + (|q| - 1) * UnisonCount(s.unison);
      SpawnedTimely(q[..|q| - 1], sample, s, ext, from);
      UnisonTimely(q[|q| - 1], sample, s, ext, first);
      AllTimelyConcat(Spawned(q[..|q| - 1], sample, s, ext, from), Unison(q[|q| - 1], sample, s, ext, first), sample);
    }
  }

  lemma UnisonTimely(n: Note, sample: nat, s: Settings, ext: Externals, first: nat)
    requires ValidSettings(s)
    ensures AllTimely(Unison(n, sample, s, ext, first), sample)
  {
    var vs := Unison(n, sample, s, ext, first);
    forall j | 0 <= j < |vs| ensures Timely(vs[j].envelope, sample, vs[j].creationTime) {
      assert vs[j] == NewVoice(n, j, sample, s, ext, ext.random(first + j));
    }
  }

  lemma AllTimelyConcat(a: seq<Voice>, b: seq<Voice>, c: nat)
    requires AllTimely(a, c) && AllTimely(b, c)
    ensures AllTimely(a + b, c)
  {
    var all := a + b;
    forall j | 0 <= j < |all| ensures Timely(all[j].envelope, c, all[j].creationTime) {
      if j >= |a| {
        assert all[j] == b[j - |a|];
      }
    }
  }
}
