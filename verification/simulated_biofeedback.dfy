/** The synthetic heart-rate generator: a first-order drifting baseline, a
    phase-driven RSA wave that remembers its last extrema, noise, a derived
    HRV and an arousal classification. */
module SimulatedBiofeedback {
  import opened Types
  import opened JsMath

  /** The generator's carried state (the module-level lets of the source). */
  datatype GenState = GenState(baseline: real, current: real, lastMax: real, lastMin: real)

  /** State at load time: every heart rate starts at 75 bpm. */
  const InitialState := GenState(75.0, 75.0, 75.0, 75.0)

  /** Baseline heart rate that a given stress level pulls towards (60..100 bpm). */
  function TargetBaseline(stress: real): (t: real)
    ensures 0.0 <= stress <= 1.0 ==> 60.0 <= t <= 100.0
  {
    60.0 + stress * 40.0
  }

  /** One 2% low-pass step of the baseline towards the target: it moves
      towards the target, never past it, and closes 2% of the gap. */
  function DriftedBaseline(b: real, stress: real): (nb: real)
    ensures TargetBaseline(stress) - nb == 0.98 * (TargetBaseline(stress) - b)
    ensures b <= TargetBaseline(stress) ==> b <= nb <= TargetBaseline(stress)
    ensures b >= TargetBaseline(stress) ==> TargetBaseline(stress) <= nb <= b
  {
    b + (TargetBaseline(stress) - b) * 0.02
  }

  /** Peak-to-trough swing used by the wave: 17 bpm relaxed, 2 bpm fully stressed. */
  function RsaAmplitude(stress: real): (a: real)
    ensures 0.0 <= stress <= 1.0 ==> 2.0 <= a <= 17.0
    ensures stress < 0.2 ==> a > 14.0
  {
    (1.0 - stress) * 15.0 + 2.0
  }

  /** Higher stress pulls the baseline up and shrinks the swing, between the
      relaxed (60 bpm, 17 bpm swing) and the fully stressed (100 bpm, 2 bpm) ends. */
  lemma StressDirections(s1: real, s2: real)
    requires s1 <= s2
    ensures TargetBaseline(0.0) == 60.0 && TargetBaseline(1.0) == 100.0
    ensures RsaAmplitude(0.0) == 17.0 && RsaAmplitude(1.0) == 2.0
    ensures TargetBaseline(s1) <= TargetBaseline(s2) && RsaAmplitude(s2) <= RsaAmplitude(s1)
  {
  }

  /** The state after one call: drift the baseline, then move the heart rate
      along the phase's branch of the wave (the source's if/else chain). */
  function Evolve(st: GenState, phase: Phase, stress: real, progress: real): (r: GenState)
    ensures r.baseline == DriftedBaseline(st.baseline, stress)
    ensures r.lastMax == (if phase == Inhale then r.current else st.lastMax)
    ensures r.lastMin == (if phase == Exhale then r.current else st.lastMin)
  {
    var b := DriftedBaseline(st.baseline, stress);
    var rsa := RsaAmplitude(stress);
    match phase
    case Inhale =>
      var hr := b + progress * rsa;
      GenState(b, hr, hr, st.lastMin)
    case Exhale =>
      var hr := st.lastMax - progress * rsa;
      GenState(b, hr, st.lastMax, hr)
    case HoldIn =>
      GenState(b, st.lastMax - progress * 2.0, st.lastMax, st.lastMin)
    case HoldOut =>
      GenState(b, st.lastMin + progress * 2.0, st.lastMax, st.lastMin)
  }

  /** The holds never touch the remembered extrema. */
  lemma HoldsKeepExtrema(st: GenState, phase: Phase, stress: real, progress: real)
    requires phase.IsHold()
    ensures Evolve(st, phase, stress, progress).lastMax == st.lastMax
    ensures Evolve(st, phase, stress, progress).lastMin == st.lastMin
  {
  }

  /** With progress in [0,1] the pre-noise heart rate stays in its phase's band. */
  lemma PreNoiseBands(st: GenState, phase: Phase, stress: real, progress: real)
    requires 0.0 <= stress <= 1.0 && 0.0 <= progress <= 1.0
    ensures var r := Evolve(st, phase, stress, progress);
      var rsa := RsaAmplitude(stress);
      match phase
      case Inhale => r.baseline <= r.current <= r.baseline + rsa
      case Exhale => st.lastMax - rsa <= r.current <= st.lastMax
      case HoldIn => st.lastMax - 2.0 <= r.current <= st.lastMax
      case HoldOut => st.lastMin <= r.current <= st.lastMin + 2.0
  {
    match phase
    case Inhale => InhaleBand(st, stress, progress);
    case Exhale => ExhaleBand(st, stress, progress);
    case HoldIn => ScaledWithin(progress, 2.0);
    case HoldOut => ScaledWithin(progress, 2.0);
  }

  lemma InhaleBand(st: GenState, stress: real, progress: real)
    requires 0.0 <= stress <= 1.0 && 0.0 <= progress <= 1.0
    ensures var r := Evolve(st, Inhale, stress, progress);
      r.baseline <= r.current <= r.baseline + RsaAmplitude(stress)
  {
    var rsa := RsaAmplitude(stress);
    ScaledWithin(progress, rsa);
    assert Evolve(st, Inhale, stress, progress).current == DriftedBaseline(st.baseline, stress) + progress * rsa;
  }

  lemma ExhaleBand(st: GenState, stress: real, progress: real)
    requires 0.0 <= stress <= 1.0 && 0.0 <= progress <= 1.0
    ensures var r := Evolve(st, Exhale, stress, progress);
      st.lastMax - RsaAmplitude(stress) <= r.current <= st.lastMax
  {
    var rsa := RsaAmplitude(stress);
    var drop := progress * rsa;
    assert Evolve(st, Exhale, stress, progress).current == st.lastMax - drop;
    ScaledProduct(progress, rsa, drop);
  }

  /** p * a lies between 0 and a when p is a fraction and a is non-negative. */
  lemma ScaledWithin(p: real, a: real)
    requires 0.0 <= p <= 1.0 && a >= 0.0
    ensures 0.0 <= p * a <= a
  {
    assert a - p * a == (1.0 - p) * a;
  }

  /** The same bound for a product that has already been named. */
  lemma ScaledProduct(p: real, a: real, d: real)
    requires 0.0 <= p <= 1.0 && a >= 0.0 && d == p * a
    ensures 0.0 <= d <= a
  {
    ScaledWithin(p, a);
  }

  /** A baseline that starts between 60 and 100 bpm stays there. */
  lemma BaselineStaysInRange(b: real, stress: real)
    requires 60.0 <= b <= 100.0 && 0.0 <= stress <= 1.0
    ensures 60.0 <= DriftedBaseline(b, stress) <= 100.0
  {
  }

  /** `n` calls at a fixed stress level. */
  function DriftTimes(b: real, stress: real, n: nat): real
  {
    if n == 0 then b else DriftedBaseline(DriftTimes(b, stress, n - 1), stress)
  }

  /** 0.98 to the n-th power. */
  function Decay(n: nat): (d: real)
    ensures 0.0 < d <= 1.0
  {
    if n == 0 then 1.0 else 0.98 * Decay(n - 1)
  }

  /** After n calls at a fixed stress the remaining gap to the target is 0.98^n
      of the initial gap, so the baseline converges geometrically to 60+40*stress. */
  lemma {:induction false} DriftConverges(b: real, stress: real, n: nat)
    ensures TargetBaseline(stress) - DriftTimes(b, stress, n) == Decay(n) * (TargetBaseline(stress) - b)
  {
    if n > 0 {
      DriftConverges(b, stress, n - 1);
      var t := TargetBaseline(stress);
      var g := t - b;
      calc {
        t - DriftTimes(b, stress, n);
        0.98 * (t - DriftTimes(b, stress, n - 1));
        0.98 * (Decay(n - 1) * g);
        { assert 0.98 * (Decay(n - 1) * g) == (0.98 * Decay(n - 1)) * g; }
        Decay(n) * g;
      }
    }
  }

  /** The reported heart rate: the pre-noise value plus uniform noise in
      [-1, 1) (from a draw in [0, 1)), rounded. It is within 1.5 bpm. */
  function NoisyHeartRate(hr: real, noiseDraw: real): (n: int)
    requires 0.0 <= noiseDraw < 1.0
    ensures hr - 1.5 < n as real < hr + 1.5
  {
    Round(hr + (noiseDraw - 0.5) * 2.0)
  }

  /** Derived HRV: five times the RSA amplitude plus a draw in [0, 10), rounded. */
  function DerivedHrv(stress: real, hrvDraw: real): (v: int)
    requires 0.0 <= hrvDraw < 1.0
    ensures 0.0 <= stress <= 1.0 ==> 10 <= v <= 95
    ensures RsaAmplitude(stress) * 5.0 - 0.5 < v as real < RsaAmplitude(stress) * 5.0 + 10.5
  {
    Round(RsaAmplitude(stress) * 5.0 + hrvDraw * 10.0)
  }

  /** The classification, built by successive overwrites as in the source:
      each later rule that fires replaces the earlier verdict. Because the
      amplitude is tied to the stress, only two outcomes are possible. */
  method DetectState(stress: real, rsa: real) returns (state: UserState)
    ensures state == HypoArousal <==> stress < 0.2 && rsa < 5.0 && !(stress < 0.4 && rsa > 10.0)
    ensures state == HyperArousal <==> stress > 0.7 && !(stress < 0.2 && rsa < 5.0) && !(stress < 0.4 && rsa > 10.0)
    ensures state != Disengaged
    ensures rsa == RsaAmplitude(stress) ==> state == (if stress > 0.7 then HyperArousal else Balanced)
  {
    state := Balanced;
    if stress > 0.7 {
      state := HyperArousal;
    }
    if stress < 0.2 && rsa < 5.0 {
      state := HypoArousal;
    }
    if stress < 0.4 && rsa > 10.0 {
      state := Balanced;
    }
  }

  /** The generator object: the module-level heart-rate variables. */
  class Generator {
    var baselineHR: real
    var currentHR: real
    var lastMaxHR: real
    var lastMinHR: real

    function State(): GenState
      reads this
    {
      GenState(baselineHR, currentHR, lastMaxHR, lastMinHR)
    }

    constructor ()
      ensures State() == InitialState
    {
      baselineHR, currentHR, lastMaxHR, lastMinHR := 75.0, 75.0, 75.0, 75.0;
    }

    /** generateBiofeedbackSample: advance the state and report one sample.
        The two `Math.random()` draws and `Date.now()` are parameters. */
    method Generate(phase: Phase, stress: real, progress: real, noiseDraw: real, hrvDraw: real, now: int)
      returns (s: Sample)
      requires 0.0 <= noiseDraw < 1.0 && 0.0 <= hrvDraw < 1.0
      modifies this
      ensures State() == Evolve(old(State()), phase, stress, progress)
      ensures s.timestamp == now
      ensures s.heartRate == NoisyHeartRate(currentHR, noiseDraw)
      ensures s.hrv == DerivedHrv(stress, hrvDraw)
      ensures s.rsaAmplitude == RoundTo1(Abs(lastMaxHR - lastMinHR)) && s.rsaAmplitude >= 0.0
      ensures s.state == (if stress > 0.7 then HyperArousal else Balanced)
    {
      var target := TargetBaseline(stress);
      baselineHR := baselineHR + (target - baselineHR) * 0.02;
      var rsa := RsaAmplitude(stress);
      if phase == Inhale {
        currentHR := baselineHR + progress * rsa;
        lastMaxHR := currentHR;
      } else if phase == Exhale {
        currentHR := lastMaxHR - progress * rsa;
        lastMinHR := currentHR;
      } else if phase == HoldIn {
        currentHR := lastMaxHR - progress * 2.0;
      } else if phase == HoldOut {
        currentHR := lastMinHR + progress * 2.0;
      }
      var finalHR := NoisyHeartRate(currentHR, noiseDraw);
      var hrv := DerivedHrv(stress, hrvDraw);
      var state := DetectState(stress, rsa);
      var amplitude := Abs(lastMaxHR - lastMinHR);
      s := Sample(now, finalHR, hrv, RoundTo1(amplitude), state);
    }
  }
}
