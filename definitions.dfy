/** Constants and plain records shared by the audio engine (AudioDefinitions.h, Note.h),
    plus the C++ integer division the engine relies on. */
module Definitions {

  /** Samples per second of the output device. */
  const SampleRate: nat := 44100
  /** Length of the precomputed noise table. */
  const NoiseSamples: nat := SampleRate
  /** Frames held by the backend's scratch mix buffer. */
  const BufferSize: nat := 1024
  /** One transport slice is one second of samples. */
  const SliceSize: nat := SampleRate

  datatype Option<T> = None | Some(value: T)

  /** The oscillator shapes. `Unrecognised` stands for an enum value outside the five
      named ones, which C++ permits through a cast. */
  datatype Waveform = Sine | Square | Saw | Triangle | Noise | Unrecognised(tag: int)

  /** A note event or a scheduled score entry. The sample clocks are `uint64_t` in the
      engine; here they are unbounded. */
  datatype Note = Note(
    noteNumber: int,
    velocity: int,
    pan: real,
    playTime: nat,
    stopTime: nat,
    isPlaying: bool)

  /** The aggregate initialisation `{note, velocity}`: every other member keeps its default. */
  function NoteEvent(noteNumber: int, velocity: int): (n: Note)
    ensures n.noteNumber == noteNumber && n.velocity == velocity
    ensures n.pan == 0.0 && n.playTime == 0 && n.stopTime == 0 && !n.isPlaying
  {
    Note(noteNumber, velocity, 0.0, 0, 0, false)
  }

  /** C++ `a / b` on `int`: the quotient truncated toward zero. */
  function TruncDiv(a: int, b: int): (q: int)
    requires b > 0
    ensures a >= 0 ==> q == a / b
    ensures a < 0 ==> q * b - b < a <= q * b
  {
    if a >= 0 then a / b else -((-a) / b)
  }

  /** C++ `a % b` on `int`: the remainder takes the sign of `a`. */
  function TruncRem(a: int, b: int): (r: int)
    requires b > 0
    ensures a == TruncDiv(a, b) * b + r
    ensures -b < r < b
    ensures a >= 0 ==> r == a % b
    ensures a < 0 ==> r == -((-a) % b)
    ensures r < 0 <==> a < 0 && a % b != 0
  {
    NegatedRemainder(a, b);
    a - TruncDiv(a, b) * b
  }

  /** A multiple of `b` stays a multiple when negated. */
  lemma NegatedRemainder(a: int, b: int)
    requires b > 0
    ensures a % b == 0 <==> (-a) % b == 0
  {
    var q, q' := a / b, (-a) / b;
    assert a == b * q + a % b;
    assert -a == b * q' + (-a) % b;
    if a % b == 0 {
      assert -a == b * (-q) + 0;
      UniqueRemainder(-a, b, -q, 0);
    }
    if (-a) % b == 0 {
      assert a == b * (-q') + 0;
      UniqueRemainder(a, b, -q', 0);
    }
  }

  /** Euclidean division has one quotient and one remainder. */
  lemma UniqueRemainder(a: int, b: int, q: int, r: int)
    requires b > 0 && 0 <= r < b && a == b * q + r
    ensures a / b == q && a % b == r
  {
    var q0, r0 := a / b, a % b;
    assert b * q0 + r0 == b * q + r;
    assert b * (q - q0) == r0 - r;
    if q > q0 {
      MultipleAtLeast(b, q - q0);
    } else if q < q0 {
      MultipleAtLeast(b, q0 - q);
    }
  }

  lemma {:induction false} MultipleAtLeast(b: int, k: int)
    requires b > 0 && k >= 1
    ensures b * k >= b
  {
    if k > 1 {
      MultipleAtLeast(b, k - 1);
      assert b * k == b * (k - 1) + b;
    }
  }

  /** The conversion `static_cast<int>(x)` of a floating value: truncation toward zero. */
  function Trunc(x: real): (n: int)
    ensures x >= 0.0 ==> 0 <= n && n as real <= x < n as real + 1.0
    ensures x < 0.0 ==> n <= 0 && n as real - 1.0 < x <= n as real
  {
    if x >= 0.0 then x.Floor else -((-x).Floor)
  }
}
