/** The per-voice ADSR envelope and the voice record of Voice.h. Both live by value
    inside a generator's voice vector, so the envelope's mutating members are modelled
    as transitions that return the updated record. */
module Envelope {
  import opened Definitions

  datatype AdsrState = Attack | Decay | Sustain | Release

  /** `AdsrEnvelope`. Durations are in samples; the tensions are stored but unused. */
  datatype Envelope = Envelope(
    state: AdsrState,
    attackTime: nat,
    attackTension: real,
    decayTime: nat,
    decayTension: real,
    sustainLevel: real,
    releaseTime: nat,
    releaseTension: real,
    currentAmplitude: real,
    releaseStartAmplitude: real)

  /** `Voice`. */
  datatype Voice = Voice(
    frequency: real,
    amplitude: real,
    detune: real,
    phase: real,
    pan: real,
    id: int,
    creationTime: nat,
    envelope: Envelope)

  /** `lerp_tension`: linear interpolation from `a` to `b`; `tension` plays no part. */
  function LerpTension(a: real, b: real, t: real, tension: real): (r: real)
    ensures t == 0.0 ==> r == a
    ensures t == 1.0 ==> r == b
  {
    a + (b - a) * t
  }

  /** The tension argument never changes the interpolated value. */
  lemma TensionIgnored(a: real, b: real, t: real, tension1: real, tension2: real)
    ensures LerpTension(a, b, t, tension1) == LerpTension(a, b, t, tension2)
  {
  }

  /** For `t` in [0, 1) the interpolated value lies between the two ends, reaching `a`
      only at `t = 0` and never reaching `b` unless the ends coincide. */
  lemma {:induction false} LerpBetween(a: real, b: real, t: real, tension: real)
    requires 0.0 <= t < 1.0
    ensures a <= b ==> a <= LerpTension(a, b, t, tension) <= b
    ensures b <= a ==> b <= LerpTension(a, b, t, tension) <= a
    ensures a < b ==> LerpTension(a, b, t, tension) < b
    ensures b < a ==> b < LerpTension(a, b, t, tension)
  {
    var d := b - a;
    assert d * (1.0 - t) == d - d * t;
    assert (-d) * (1.0 - t) == d * t - d;
    assert (-d) * t == -(d * t);
    assert LerpTension(a, b, t, tension) == a + d * t;
    if d >= 0.0 {
      ProductNonNegative(d, 1.0 - t);
      ProductNonNegative(d, t);
    } else {
      ProductNonNegative(-d, 1.0 - t);
      ProductNonNegative(-d, t);
    }
    if d > 0.0 {
      ProductPositive(d, 1.0 - t);
    }
    if d < 0.0 {
      ProductPositive(-d, 1.0 - t);
    }
  }

  lemma ProductNonNegative(x: real, y: real)
    requires 0.0 <= x && 0.0 <= y
    ensures 0.0 <= x * y
  {
  }

  lemma ProductPositive(x: real, y: real)
    requires 0.0 < x && 0.0 < y
    ensures 0.0 < x * y
  {
  }

  /** A sample offset short of a duration is a fraction in [0, 1) of it. */
  lemma FractionBelowOne(elapsed: nat, duration: nat)
    requires elapsed < duration
    ensures 0.0 <= elapsed as real / duration as real < 1.0
    ensures (elapsed as real / duration as real) * duration as real == elapsed as real
  {
  }

  /** The facts about the clock that `process` relies on: the sample is not earlier
      than the reference time, and in Decay the attack is over. A generator only ever
      asks for later samples than those it created or released a voice at, so the
      unsigned subtractions in `process` never wrap. */
  predicate Timely(e: Envelope, current: nat, creation: nat)
  {
    creation <= current && (e.state == Decay ==> creation + e.attackTime <= current)
  }

  /** A later sample is timely too. */
  lemma TimelyLater(e: Envelope, current: nat, later: nat, creation: nat)
    requires Timely(e, current, creation) && current <= later
    ensures Timely(e, later, creation)
  {
  }

  /** The outcome of one `process` call: the updated envelope, the returned gain and
      the value left in `*should_kill`. */
  datatype Step = Step(env: Envelope, gain: real, kill: bool)

  /** `AdsrEnvelope::process` at sample `current` for a voice created (or released) at
      `creation`, with `kill` the incoming value of `*should_kill`. */
  function Process(e: Envelope, current: nat, creation: nat, kill: bool): (s: Step)
    requires Timely(e, current, creation)
    // only the state and the current amplitude change, and the latter is the gain
    ensures s.env == e.(state := s.env.state, currentAmplitude := s.gain)
    // the flag is never cleared; it is raised exactly when a release has run its course
    ensures s.kill == (kill || (e.state == Release && current >= creation + e.releaseTime))
    // the only transitions are Attack to Decay and Decay to Sustain
    ensures e.state == Attack ==> (s.env.state == Decay <==> current >= creation + e.attackTime)
    ensures e.state == Attack ==> s.env.state in {Attack, Decay}
    ensures e.state == Decay ==> (s.env.state == Sustain <==> current >= creation + e.attackTime + e.decayTime)
    ensures e.state == Decay ==> s.env.state in {Decay, Sustain}
    ensures e.state in {Sustain, Release} ==> s.env.state == e.state
    ensures Timely(s.env, current, creation)
  {
    match e.state
    case Attack =>
      if current >= creation + e.attackTime then
        Step(e.(state := Decay, currentAmplitude := 1.0), 1.0, kill)
      else
        var t := (current - creation) as real / e.attackTime as real;
        var a := LerpTension(0.0, 1.0, t, e.attackTension);
        Step(e.(currentAmplitude := a), a, kill)
    case Decay =>
      if current >= creation + e.attackTime + e.decayTime then
        Step(e.(state := Sustain, currentAmplitude := e.sustainLevel), e.sustainLevel, kill)
      else
        var t := (current - (creation + e.attackTime)) as real / e.decayTime as real;
        var a := LerpTension(1.0, e.sustainLevel, t, e.decayTension);
        Step(e.(currentAmplitude := a), a, kill)
    case Sustain =>
      Step(e.(currentAmplitude := e.sustainLevel), e.sustainLevel, kill)
    case Release =>
      if current >= creation + e.releaseTime then
        Step(e.(currentAmplitude := 0.0), 0.0, true)
      else
        var t := (current - creation) as real / e.releaseTime as real;
        var a := LerpTension(e.releaseStartAmplitude, 0.0, t, e.releaseTension);
        Step(e.(currentAmplitude := a), a, kill)
  }

  /** Attack: the gain rises linearly from 0, stays below 1 while the attack lasts, and
      is exactly 1 once it is over. */
  lemma AttackGain(e: Envelope, current: nat, creation: nat, kill: bool)
    requires e.state == Attack && Timely(e, current, creation)
    ensures current >= creation + e.attackTime ==> Process(e, current, creation, kill).gain == 1.0
    ensures current < creation + e.attackTime ==>
      var g := Process(e, current, creation, kill).gain;
      0.0 <= g < 1.0 && g * e.attackTime as real == (current - creation) as real
  {
    if current < creation + e.attackTime {
      var t := (current - creation) as real / e.attackTime as real;
      FractionBelowOne(current - creation, e.attackTime);
      LerpBetween(0.0, 1.0, t, e.attackTension);
    }
  }

  /** Decay: the gain falls linearly from 1 towards the sustain level and is the sustain
      level once the decay is over. */
  lemma DecayGain(e: Envelope, current: nat, creation: nat, kill: bool)
    requires e.state == Decay && Timely(e, current, creation)
    ensures current >= creation + e.attackTime + e.decayTime ==>
      Process(e, current, creation, kill).gain == e.sustainLevel
    ensures current < creation + e.attackTime + e.decayTime ==>
      var g := Process(e, current, creation, kill).gain;
      (g - 1.0) * e.decayTime as real == (e.sustainLevel - 1.0) * (current - creation - e.attackTime) as real
      && (e.sustainLevel <= 1.0 ==> e.sustainLevel < g <= 1.0 || e.sustainLevel == g == 1.0)
  {
    if current < creation + e.attackTime + e.decayTime {
      var t := (current - (creation + e.attackTime)) as real / e.decayTime as real;
      FractionBelowOne(current - (creation + e.attackTime), e.decayTime);
      LerpBetween(1.0, e.sustainLevel, t, e.decayTension);
      var d := e.decayTime as real;
      assert t * d == (current - creation - e.attackTime) as real;
      calc {
        (Process(e, current, creation, kill).gain - 1.0) * d;
        ((e.sustainLevel - 1.0) * t) * d;
        (e.sustainLevel - 1.0) * (t * d);
      }
    }
  }

  /** Sustain holds the sustain level and never leaves the state by itself. */
  lemma SustainHolds(e: Envelope, current: nat, creation: nat, kill: bool)
    requires e.state == Sustain && Timely(e, current, creation)
    ensures Process(e, current, creation, kill).gain == e.sustainLevel
    ensures Process(e, current, creation, kill).env.state == Sustain
  {
  }

  /** Release: the gain falls linearly from the amplitude captured at release entry and
      is exactly 0 once the release time has elapsed. */
  lemma ReleaseGain(e: Envelope, current: nat, creation: nat, kill: bool)
    requires e.state == Release && Timely(e, current, creation)
    ensures current >= creation + e.releaseTime ==> Process(e, current, creation, kill).gain == 0.0
    ensures current < creation + e.releaseTime ==>
      var g := Process(e, current, creation, kill).gain;
      (e.releaseStartAmplitude - g) * e.releaseTime as real == e.releaseStartAmplitude * (current - creation) as real
      && (0.0 <= e.releaseStartAmplitude ==> 0.0 < g <= e.releaseStartAmplitude || g == e.releaseStartAmplitude == 0.0)
  {
    if current < creation + e.releaseTime {
      var t := (current - creation) as real / e.releaseTime as real;
      FractionBelowOne(current - creation, e.releaseTime);
      LerpBetween(e.releaseStartAmplitude, 0.0, t, e.releaseTension);
      var d := e.releaseTime as real;
      assert t * d == (current - creation) as real;
      calc {
        (e.releaseStartAmplitude - Process(e, current, creation, kill).gain) * d;
        (e.releaseStartAmplitude * t) * d;
        e.releaseStartAmplitude * (t * d);
      }
    }
  }

  /** `enterRelease`: switch to Release, capturing the current amplitude as the start of
      the release ramp; nothing else changes. */
  function EnterRelease(e: Envelope): (r: Envelope)
    ensures r.state == Release
    ensures r.releaseStartAmplitude == e.currentAmplitude
    ensures r.(state := e.state, releaseStartAmplitude := e.releaseStartAmplitude) == e
  {
    e.(releaseStartAmplitude := e.currentAmplitude, state := Release)
  }

  /** Continuity: released right after a `process` call, the release starts from the
      gain that call returned, and the first release sample (at the release instant
      itself) plays that gain again when the release time is not zero. */
  lemma ReleaseIsContinuous(e: Envelope, current: nat, creation: nat, kill: bool, at: nat)
    requires Timely(e, current, creation)
    ensures var s := Process(e, current, creation, kill);
      var r := EnterRelease(s.env);
      r.releaseStartAmplitude == s.gain
      && (r.releaseTime > 0 ==> Process(r, at, at, false).gain == s.gain)
  {
  }

  /** Convergence to sustain: once attack and decay are over, two consecutive `process`
      calls from Attack reach Sustain and return the sustain level, and Sustain is kept. */
  lemma ReachesSustain(e: Envelope, current: nat, later: nat, creation: nat, kill: bool)
    requires e.state == Attack && creation + e.attackTime + e.decayTime <= current <= later
    ensures var s1 := Process(e, current, creation, kill);
      var s2 := Process(s1.env, current, creation, kill);
      s2.env.state == Sustain && s2.gain == e.sustainLevel
      && Process(s2.env, later, creation, kill).gain == e.sustainLevel
      && Process(s2.env, later, creation, kill).env.state == Sustain
  {
  }
}
