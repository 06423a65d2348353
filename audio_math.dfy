/** The stateless signal helpers of audio_math.h: the linear pan law and the
    waveform evaluator, over the reals. */
module AudioMath {
  import opened Definitions

  /** `M_PI` as written in the C library headers. */
  const Pi: real := 3.14159265358979323846
  const TwoPi: real := 2.0 * Pi

  /** One stereo frame: `std::array<float, 2>` with index 0 left and index 1 right. */
  datatype Stereo = Stereo(left: real, right: real)

  /** The left and right gains of the linear pan law: they always add up to one and
      their difference is the pan position itself. */
  function PanGains(p: real): (g: Stereo)
    ensures g.left + g.right == 1.0
    ensures g.right - g.left == p
  {
    Stereo((1.0 - p) * 0.5, (1.0 + p) * 0.5)
  }

  /** `pan`: each channel is scaled by its own gain, so the left output depends only
      on the left input and the right output only on the right input. */
  function Pan(inp: Stereo, p: real): (out: Stereo)
    ensures out.left == inp.left * PanGains(p).left
    ensures out.right == inp.right * PanGains(p).right
  {
    Stereo(inp.left * ((1.0 - p) * 0.5), inp.right * ((1.0 + p) * 0.5))
  }

  /** Hard left keeps only the left input, hard right only the right one, and the
      centre halves both. */
  lemma PanPositions(inp: Stereo)
    ensures Pan(inp, -1.0) == Stereo(inp.left, 0.0)
    ensures Pan(inp, 1.0) == Stereo(0.0, inp.right)
    ensures Pan(inp, 0.0) == Stereo(inp.left / 2.0, inp.right / 2.0)
  {
  }

  /** Panning a mono frame splits the sample between the channels without loss. */
  lemma PanSplitsMono(s: real, p: real)
    ensures Pan(Stereo(s, s), p).left + Pan(Stereo(s, s), p).right == s
  {
    var g := PanGains(p);
    calc {
      Pan(Stereo(s, s), p).left + Pan(Stereo(s, s), p).right;
      s * g.left + s * g.right;
      s * (g.left + g.right);
    }
  }

  /** The phase folded into one turn: `fmodf(phase, 2π)`, moved up by one turn when
      negative. The result lies in [0, 2π). */
  function FoldPhase(phase: real): (r: real)
    ensures 0.0 <= r < TwoPi
  {
    var m := phase - Trunc(phase / TwoPi) as real * TwoPi;
    if m < 0.0 then m + TwoPi else m
  }

  /** Folding removes a whole number of turns and leaves a phase already in one turn
      as it is. */
  lemma FoldPhaseTurns(phase: real)
    ensures ((phase - FoldPhase(phase)) / TwoPi).Floor as real == (phase - FoldPhase(phase)) / TwoPi
    ensures 0.0 <= phase < TwoPi ==> FoldPhase(phase) == phase
  {
    var t := Trunc(phase / TwoPi);
    if phase - t as real * TwoPi < 0.0 {
      assert (phase - FoldPhase(phase)) / TwoPi == (t - 1) as real;
    } else {
      assert (phase - FoldPhase(phase)) / TwoPi == t as real;
    }
  }

  /** The sine and arcsine of the C library, which the model does not interpret. */
  datatype Trig = Trig(sin: real -> real, asin: real -> real)

  /** The noise-table index for a folded phase: one table entry per 1/NoiseSamples
      of a turn, reduced modulo the table length. */
  function NoiseIndex(folded: real): (i: int)
    requires 0.0 <= folded < TwoPi
    ensures 0 <= i < NoiseSamples
  {
    TruncRem(Trunc(folded * NoiseSamples as real / TwoPi), NoiseSamples)
  }

  /** `generate_waveform`. Sine and Triangle go through the uninterpreted `trig`;
      Noise reads the given noise table. */
  function GenerateWaveform(w: Waveform, phase: real, trig: Trig, noise: seq<real>): real
    requires |noise| == NoiseSamples
  {
    var folded := FoldPhase(phase);
    match w
    case Sine => trig.sin(phase)
    case Square => if folded < Pi then 1.0 else -1.0
    case Saw => folded / Pi - 1.0
    case Triangle => (2.0 / Pi) * trig.asin(trig.sin(phase))
    case Noise => noise[NoiseIndex(folded)]
    case Unrecognised(_) => 0.0
  }

  /** What each waveform produces at a phase, in terms of the phase folded into one
      turn: the square is +1 on the first half turn and -1 on the second, the saw rises
      linearly from -1 towards +1, the noise reads the table entry for the phase, and an
      unrecognised waveform is silent. */
  lemma WaveformShapes(w: Waveform, phase: real, trig: Trig, noise: seq<real>)
    requires |noise| == NoiseSamples
    ensures var r := GenerateWaveform(w, phase, trig, noise);
      && (w == Square ==> (r == 1.0 <==> FoldPhase(phase) < Pi) && (r == 1.0 || r == -1.0))
      && (w == Saw ==> -1.0 <= r < 1.0 && (r + 1.0) * Pi == FoldPhase(phase))
      && (w == Noise ==> r == noise[NoiseIndex(FoldPhase(phase))])
      && (w.Unrecognised? ==> r == 0.0)
  {
  }

  /** The square wave is +1 on the first half of every turn and -1 on the second. */
  lemma SquareHalves(phase: real, trig: Trig, noise: seq<real>)
    requires |noise| == NoiseSamples && 0.0 <= phase < TwoPi
    ensures phase < Pi ==> GenerateWaveform(Square, phase, trig, noise) == 1.0
    ensures Pi <= phase ==> GenerateWaveform(Square, phase, trig, noise) == -1.0
  {
    FoldPhaseTurns(phase);
    WaveformShapes(Square, phase, trig, noise);
  }
}
