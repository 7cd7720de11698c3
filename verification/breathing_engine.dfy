/** The phase scheduler and session engine (the useBreathingEngine hook):
    the next-phase table, the adaptive duration rule, the bounded sample
    history with its start-metrics snapshot, and the session lifecycle as
    explicit events on an Engine object. */
module BreathingEngine {
  import opened Types
  import opened Constants
  import opened JsMath
  import SimulatedBiofeedback

  // ---------------------------------------------------------------------------
  // Next-phase table (switchPhase)
  // ---------------------------------------------------------------------------

  /** The plain cyclic order INHALE -> HOLD_IN -> EXHALE -> HOLD_OUT -> INHALE. */
  function Succ(p: Phase): Phase {
    match p
    case Inhale => HoldIn
    case HoldIn => Exhale
    case Exhale => HoldOut
    case HoldOut => Inhale
  }

  /** The phase that follows `p`: a hold whose base time is not positive is
      skipped; the transitions out of a hold are unconditional. */
  function NextPhase(p: Phase, t: Timing): (r: Phase)
    ensures r == (if Succ(p).IsHold() && t.At(Succ(p)) <= 0 then Succ(Succ(p)) else Succ(p))
    ensures r.IsHold() ==> t.At(r) > 0
  {
    match p
    case Inhale => if t.holdIn > 0 then HoldIn else Exhale
    case HoldIn => Exhale
    case Exhale => if t.holdOut > 0 then HoldOut else Inhale
    case HoldOut => Inhale
  }

  /** When inhale and exhale are non-empty, every scheduled phase has a positive base time. */
  lemma NextPhaseIsNeverEmpty(p: Phase, t: Timing)
    requires t.inhale > 0 && t.exhale > 0
    ensures t.At(NextPhase(p, t)) > 0
  {
  }

  /** The phase after `n` transitions. */
  function Advance(p: Phase, t: Timing, n: nat): Phase
    decreases n
  {
    if n == 0 then p else Advance(NextPhase(p, t), t, n - 1)
  }

  /** Number of phases in one breath: inhale and exhale plus each non-empty hold. */
  function CycleLength(t: Timing): (k: nat)
    ensures 2 <= k <= 4
  {
    2 + (if t.holdIn > 0 then 1 else 0) + (if t.holdOut > 0 then 1 else 0)
  }

  lemma {:induction false} AdvanceAdd(p: Phase, t: Timing, a: nat, b: nat)
    ensures Advance(p, t, a + b) == Advance(Advance(p, t, a), t, b)
    decreases a
  {
    if a > 0 {
      AdvanceAdd(NextPhase(p, t), t, a - 1, b);
    }
  }

  /** Starting from INHALE the phase is back at INHALE after exactly
      CycleLength(t) transitions (at most 4) and not before, and on the way it
      visits precisely the phases whose base time is positive. */
  lemma {:induction false} CycleReturnsToInhale(t: Timing)
    requires t.inhale > 0 && t.exhale > 0
    ensures Advance(Inhale, t, CycleLength(t)) == Inhale
    ensures forall j :: 0 < j < CycleLength(t) ==> Advance(Inhale, t, j) != Inhale
    ensures forall j :: 0 <= j < CycleLength(t) ==> t.At(Advance(Inhale, t, j)) > 0
    ensures forall ph: Phase :: t.At(ph) > 0 ==> exists j :: 0 <= j < CycleLength(t) && Advance(Inhale, t, j) == ph
  {
    var k := CycleLength(t);
    var a1 := NextPhase(Inhale, t);
    var a2 := NextPhase(a1, t);
    var a3 := NextPhase(a2, t);
    var a4 := NextPhase(a3, t);
    assert Advance(Inhale, t, 0) == Inhale;
    AdvanceAdd(Inhale, t, 1, 0);
    AdvanceAdd(Inhale, t, 1, 1);
    AdvanceAdd(Inhale, t, 2, 1);
    AdvanceAdd(Inhale, t, 3, 1);
    assert Advance(Inhale, t, 1) == a1;
    assert Advance(Inhale, t, 2) == a2;
    assert Advance(Inhale, t, 3) == a3;
    assert Advance(Inhale, t, 4) == a4;
    forall ph: Phase | t.At(ph) > 0
      ensures exists j :: 0 <= j < k && Advance(Inhale, t, j) == ph
    {
      if ph == Inhale {
        assert Advance(Inhale, t, 0) == ph;
      } else if ph == a1 {
        assert Advance(Inhale, t, 1) == ph;
      } else if ph == a2 {
        assert Advance(Inhale, t, 2) == ph;
      } else {
        assert k == 4 && Advance(Inhale, t, 3) == ph;
      }
    }
  }

  /** The schedule repeats forever with period CycleLength(t). */
  lemma {:induction false} CycleIsPeriodic(t: Timing, n: nat)
    requires t.inhale > 0 && t.exhale > 0
    ensures Advance(Inhale, t, n + CycleLength(t)) == Advance(Inhale, t, n)
  {
    CycleReturnsToInhale(t);
    AdvanceAdd(Inhale, t, CycleLength(t), n);
  }

  // ---------------------------------------------------------------------------
  // Effective duration (getAdaptiveDuration)
  // ---------------------------------------------------------------------------

  /** The inputs the hook reads besides the history. */
  datatype Config = Config(pattern: Pattern, isAdaptive: bool, breathCycleSeconds: real)

  /** What the app passes: a catalog pattern and a positive coherent cycle (slider 8..14 s). */
  predicate ConfigOk(cfg: Config) {
    InCatalog(cfg.pattern) && cfg.breathCycleSeconds > 0.0
  }

  /** `latestData?.heartRate || 70`: a missing sample or a heart rate of 0 reads as 70. */
  function LatestHeartRate(latest: Option<Sample>): (hr: int)
    ensures latest.None? ==> hr == 70
    ensures latest.Some? ==> hr == (if latest.value.heartRate == 0 then 70 else latest.value.heartRate)
  {
    if latest.Some? && latest.value.heartRate != 0 then latest.value.heartRate else 70
  }

  /** `latestData?.rsaAmplitude || 0`. */
  function LatestRsa(latest: Option<Sample>): (rsa: real)
    ensures latest.None? ==> rsa == 0.0
  {
    if latest.Some? then latest.value.rsaAmplitude else 0.0
  }

  /** All the conditions under which a phase is lengthened by half a second. */
  predicate StretchApplies(cfg: Config, base: int, ph: Phase, latest: Option<Sample>) {
    var hr := LatestHeartRate(latest);
    cfg.isAdaptive && base != 0
    && !(hr > 95 && LatestRsa(latest) < 3.0)
    && ((ph == Exhale && hr > 75) || (ph == Inhale && hr < 55))
  }

  /** Duration in ms of a phase with base time `base` seconds. The coherent
      pattern always takes half the configured cycle; any other pattern takes
      exactly its base time, or half a second more precisely when
      StretchApplies. */
  function AdaptiveDuration(cfg: Config, base: int, ph: Phase, latest: Option<Sample>): (ms: real)
    ensures cfg.pattern.id == Coherent ==> ms == cfg.breathCycleSeconds * 1000.0 / 2.0
    ensures cfg.pattern.id != Coherent ==>
      (ms == base as real * 1000.0 || ms == base as real * 1000.0 + 500.0)
      && (ms == base as real * 1000.0 + 500.0 <==> StretchApplies(cfg, base, ph, latest))
    ensures cfg.pattern.id != Coherent && base >= 0 ==> ms >= 0.0
    ensures cfg.pattern.id != Coherent && base > 0 ==> ms > 0.0
  {
    if cfg.pattern.id == Coherent then cfg.breathCycleSeconds * 1000.0 / 2.0
    else if !cfg.isAdaptive || base == 0 then base as real * 1000.0
    else
      var hr := LatestHeartRate(latest);
      var rsa := LatestRsa(latest);
      if hr > 95 && rsa < 3.0 then base as real * 1000.0
      else if ph == Exhale && hr > 75 then (base as real + 0.5) * 1000.0
      else if ph == Inhale && hr < 55 then (base as real + 0.5) * 1000.0
      else base as real * 1000.0
  }

  /** Without a usable sample (none yet, or heart rate 0) nothing is stretched. */
  lemma NoSampleNoStretch(cfg: Config, base: int, ph: Phase, latest: Option<Sample>)
    requires cfg.pattern.id != Coherent
    requires latest.None? || latest.value.heartRate == 0
    ensures AdaptiveDuration(cfg, base, ph, latest) == base as real * 1000.0
  {
  }

  /** The acute-distress guard keeps the base duration. */
  lemma DistressKeepsBase(cfg: Config, base: int, ph: Phase, latest: Option<Sample>)
    requires cfg.pattern.id != Coherent
    requires LatestHeartRate(latest) > 95 && LatestRsa(latest) < 3.0
    ensures AdaptiveDuration(cfg, base, ph, latest) == base as real * 1000.0
  {
  }

  /** The duration the engine schedules after `p` is positive for every
      catalog pattern, so no zero-length timer is ever armed. */
  lemma ScheduledDurationPositive(cfg: Config, p: Phase, latest: Option<Sample>)
    requires ConfigOk(cfg)
    ensures var next := NextPhase(p, cfg.pattern.baseTiming);
      AdaptiveDuration(cfg, cfg.pattern.baseTiming.At(next), next, latest) > 0.0
    ensures AdaptiveDuration(cfg, cfg.pattern.baseTiming.inhale, Inhale, latest) > 0.0
  {
    CatalogBreathsPositive(cfg.pattern);
    NextPhaseIsNeverEmpty(p, cfg.pattern.baseTiming);
  }

  // ---------------------------------------------------------------------------
  // Effects dispatched on each phase change (triggerEffects' label mapping)
  // ---------------------------------------------------------------------------

  datatype Haptic = InhalePulse | ExhalePulse | HoldPulse

  /** The haptic pattern and spoken word announced for a phase. */
  datatype Cue = Cue(haptic: Haptic, voice: string)

  /** Both holds share one cue; inhale and exhale each have their own. */
  function CueFor(p: Phase): (c: Cue)
    ensures c.haptic == HoldPulse <==> p.IsHold()
    ensures c.haptic == InhalePulse <==> p == Inhale
    ensures c.haptic == ExhalePulse <==> p == Exhale
    ensures c.voice == "Segure" <==> p.IsHold()
  {
    if p == Inhale then Cue(InhalePulse, "Inspire")
    else if p == Exhale then Cue(ExhalePulse, "Solte o ar")
    else Cue(HoldPulse, "Segure")
  }

  // ---------------------------------------------------------------------------
  // The bounded history and the start-metrics snapshot (the sampling tick)
  // ---------------------------------------------------------------------------

  /** The test is `prev.length > 120`, so the window settles at 121 samples. */
  const HistoryCap: nat := 120

  function Last(h: seq<Sample>): (r: Option<Sample>)
    ensures r.None? <==> h == []
    ensures r.Some? ==> r.value == h[|h| - 1]
  {
    if h == [] then None else Some(h[|h| - 1])
  }

  /** The new sample goes last; the oldest is dropped only when the previous
      history already held more than 120 samples, and order is kept. */
  function Appended(prev: seq<Sample>, s: Sample): (r: seq<Sample>)
    ensures |r| == |prev| || |r| == |prev| + 1
    ensures |r| == |prev| <==> |prev| > HistoryCap
    ensures |r| > 0 && r[|r| - 1] == s
    ensures r == (prev + [s])[|prev| + 1 - |r|..]
    ensures |prev| <= HistoryCap + 1 ==> |r| <= HistoryCap + 1
  {
    if |prev| > HistoryCap then prev[1..] + [s] else prev + [s]
  }

  /** What each tick updates: the history and the start-metrics snapshot. */
  datatype Recording = Recording(history: seq<Sample>, startMetrics: Option<Sample>)

  /** One tick: append, and capture the sample that follows five earlier ones
      if nothing was captured yet. */
  function Record(rec: Recording, s: Sample): (r: Recording)
    ensures r.history == Appended(rec.history, s)
    ensures r.startMetrics != rec.startMetrics <==> |rec.history| == 5 && rec.startMetrics.None?
    ensures r.startMetrics.None? ==> rec.startMetrics.None?
  {
    Recording(Appended(rec.history, s),
              if |rec.history| == 5 && rec.startMetrics.None? then Some(s) else rec.startMetrics)
  }

  /** A run of ticks producing `ss` in order. */
  function RecordAll(rec: Recording, ss: seq<Sample>): Recording
    decreases |ss|
  {
    if ss == [] then rec else Record(RecordAll(rec, ss[..|ss| - 1]), ss[|ss| - 1])
  }

  function MinNat(a: nat, b: nat): nat { if a <= b then a else b }

  /** One tick keeps "the newest min(n, 121) samples" true. */
  lemma WindowStep(ss: seq<Sample>, h0: seq<Sample>)
    requires ss != []
    requires h0 == ss[..|ss| - 1][|ss| - 1 - MinNat(|ss| - 1, HistoryCap + 1)..]
    ensures Appended(h0, ss[|ss| - 1]) == ss[|ss| - MinNat(|ss|, HistoryCap + 1)..]
  {
    var pre := ss[..|ss| - 1];
    assert pre + [ss[|ss| - 1]] == ss;
    if |pre| > HistoryCap {
      assert h0[1..] == pre[|pre| - HistoryCap..];
    } else {
      assert h0 == pre;
    }
  }

  /** From an empty history, after n ticks the history holds the newest
      min(n, 121) samples, in production order. */
  lemma {:induction false} RecordAllWindow(ss: seq<Sample>)
    ensures RecordAll(Recording([], None), ss).history == ss[|ss| - MinNat(|ss|, HistoryCap + 1)..]
  {
    if ss != [] {
      RecordAllWindow(ss[..|ss| - 1]);
      WindowStep(ss, RecordAll(Recording([], None), ss[..|ss| - 1]).history);
    }
  }

  /** From an empty history, the start metrics are the 6th sample once there
      is one: captured once and never replaced. */
  lemma {:induction false} RecordAllStartMetrics(ss: seq<Sample>)
    ensures |RecordAll(Recording([], None), ss).history| == MinNat(|ss|, HistoryCap + 1)
    ensures RecordAll(Recording([], None), ss).startMetrics == if |ss| >= 6 then Some(ss[5]) else None
  {
    if ss != [] {
      var pre := ss[..|ss| - 1];
      var s := ss[|ss| - 1];
      RecordAllStartMetrics(pre);
      var r0 := RecordAll(Recording([], None), pre);
      assert RecordAll(Recording([], None), ss) == Record(r0, s);
      if |pre| >= 6 {
        assert pre[5] == ss[5];
      }
    }
  }

  // ---------------------------------------------------------------------------
  // The session engine
  // ---------------------------------------------------------------------------

  /** Sampling-tick progress through the current phase: clamped from above
      only, so a tick that comes late reads 1 and one before the phase start
      would read a negative value. */
  function Progress(now: int, phaseStart: int, durationMs: real): (p: real)
    requires durationMs > 0.0
    ensures p <= 1.0
    ensures now >= phaseStart ==> p >= 0.0
    ensures now < phaseStart ==> p < 0.0
    ensures p == 1.0 <==> (now - phaseStart) as real >= durationMs
    ensures (now - phaseStart) as real < durationMs ==> p * durationMs == (now - phaseStart) as real
  {
    RatioAtLeastOne((now - phaseStart) as real, durationMs);
    MinReal((now - phaseStart) as real / durationMs, 1.0)
  }

  lemma RatioAtLeastOne(e: real, d: real)
    requires d > 0.0
    ensures e / d >= 1.0 <==> e >= d
    ensures e >= 0.0 ==> e / d >= 0.0
    ensures e < 0.0 ==> e / d < 0.0
  {
    assert (e / d) * d == e;
    if e / d >= 1.0 {
      assert (e / d) * d >= 1.0 * d;
    } else {
      assert (e / d) * d < 1.0 * d;
    }
  }

  /** The hook's state cells and timer handles. */
  class Engine {
    var config: Config
    var phase: Phase
    var phaseDurationMs: real
    var phaseStartTime: int
    var history: seq<Sample>
    var startMetrics: Option<Sample>
    var sessionStartTime: Option<int>
    /** Deadline of the armed phase timer (timerRef), None when cleared. */
    var timerDeadline: Option<real>
    /** Whether the 50 ms sampling interval (intervalRef) is running. */
    var samplingArmed: bool

    ghost predicate Valid()
      reads this
    {
      ConfigOk(config) && phaseDurationMs > 0.0 && |history| <= HistoryCap + 1
      && (samplingArmed <==> timerDeadline.Some?)
    }

    function Recorded(): Recording
      reads this
    {
      Recording(history, startMetrics)
    }

    /** The hook's first render: INHALE, empty history, nothing armed, 5000 ms. */
    constructor (cfg: Config)
      requires ConfigOk(cfg)
      ensures Valid()
      ensures config == cfg && phase == Inhale && phaseDurationMs == 5000.0 && phaseStartTime == 0
      ensures history == [] && startMetrics == None && sessionStartTime == None
      ensures timerDeadline == None && !samplingArmed
    {
      config := cfg;
      phase := Inhale;
      phaseDurationMs := 5000.0;
      phaseStartTime := 0;
      history := [];
      startMetrics := None;
      sessionStartTime := None;
      timerDeadline := None;
      samplingArmed := false;
    }

    /** isPlaying becomes true (or the pattern / cycle changes while playing):
        cancel any pending phase timer, keep an existing session start time,
        go to INHALE with its effective duration, and arm both clocks. */
    method Start(now: int, cfg: Config) returns (cue: Cue)
      requires Valid() && ConfigOk(cfg)
      modifies this
      ensures Valid()
      ensures config == cfg && phase == Inhale
      ensures phaseDurationMs == AdaptiveDuration(cfg, cfg.pattern.baseTiming.inhale, Inhale, Last(history))
      ensures phaseStartTime == now && timerDeadline == Some(now as real + phaseDurationMs) && samplingArmed
      ensures sessionStartTime ==
        (if old(sessionStartTime).None? || old(sessionStartTime).value == 0 then Some(now) else old(sessionStartTime))
      ensures history == old(history) && startMetrics == old(startMetrics)
      ensures cue == CueFor(Inhale)
    {
      timerDeadline := None;
      if sessionStartTime.None? || sessionStartTime.value == 0 {
        sessionStartTime := Some(now);
      }
      config := cfg;
      phase := Inhale;
      cue := CueFor(Inhale);
      ScheduledDurationPositive(cfg, Inhale, Last(history));
      var initialDuration := AdaptiveDuration(cfg, cfg.pattern.baseTiming.inhale, Inhale, Last(history));
      phaseDurationMs := initialDuration;
      phaseStartTime := now;
      timerDeadline := Some(now as real + initialDuration);
      samplingArmed := true;
    }

    /** isPlaying becomes false: clear both clocks, the session start time and
        the history; the start metrics, the phase and its timing stay. */
    method Stop()
      requires Valid()
      modifies this
      ensures Valid()
      ensures timerDeadline == None && !samplingArmed
      ensures sessionStartTime == None && history == []
      ensures startMetrics == old(startMetrics) && config == old(config) && phase == old(phase)
      ensures phaseDurationMs == old(phaseDurationMs) && phaseStartTime == old(phaseStartTime)
    {
      timerDeadline := None;
      samplingArmed := false;
      sessionStartTime := None;
      history := [];
    }

    /** The phase timer fires: move to the next phase, compute its effective
        duration from `latest` (the sample the callback sees), restart the
        phase clock and re-arm the timer. A cleared timer never fires. */
    method PhaseTimerFired(now: int, latest: Option<Sample>) returns (cue: Option<Cue>)
      requires Valid()
      modifies this
      ensures Valid()
      ensures old(timerDeadline).None? ==> cue.None? && unchanged(this)
      ensures old(timerDeadline).Some? ==>
        var next := NextPhase(old(phase), config.pattern.baseTiming);
        && phase == next
        && phaseDurationMs == AdaptiveDuration(config, config.pattern.baseTiming.At(next), next, latest)
        && phaseStartTime == now
        && timerDeadline == Some(now as real + phaseDurationMs)
        && cue == Some(CueFor(next))
        && config == old(config) && samplingArmed == old(samplingArmed)
        && Recorded() == old(Recorded()) && sessionStartTime == old(sessionStartTime)
    {
      if timerDeadline.None? {
        cue := None;
        return;
      }
      var next := NextPhase(phase, config.pattern.baseTiming);
      cue := Some(CueFor(next));
      ScheduledDurationPositive(config, phase, latest);
      var nextDuration := AdaptiveDuration(config, config.pattern.baseTiming.At(next), next, latest);
      phaseDurationMs := nextDuration;
      phaseStartTime := now;
      timerDeadline := Some(now as real + nextDuration);
      phase := next;
    }

    /** The 50 ms sampling tick: compute the progress through the phase, ask
        the generator for a sample at the current stress level, and record it.
        A stopped interval never ticks. */
    method Tick(now: int, stress: real, gen: SimulatedBiofeedback.Generator, noiseDraw: real, hrvDraw: real)
      returns (sample: Option<Sample>)
      requires Valid()
      requires 0.0 <= noiseDraw < 1.0 && 0.0 <= hrvDraw < 1.0
      modifies this, gen
      ensures Valid()
      ensures !old(samplingArmed) ==> sample.None? && unchanged(this) && unchanged(gen)
      ensures old(samplingArmed) ==>
        && sample.Some?
        && gen.State() == SimulatedBiofeedback.Evolve(old(gen.State()), phase, stress,
                                                      Progress(now, phaseStartTime, phaseDurationMs))
        && sample.value.timestamp == now
        && sample.value.heartRate == SimulatedBiofeedback.NoisyHeartRate(gen.currentHR, noiseDraw)
        && sample.value.hrv == SimulatedBiofeedback.DerivedHrv(stress, hrvDraw)
        && sample.value.rsaAmplitude == RoundTo1(Abs(gen.lastMaxHR - gen.lastMinHR))
        && sample.value.rsaAmplitude >= 0.0
        && sample.value.state == (if stress > 0.7 then HyperArousal else Balanced)
        && Recorded() == Record(old(Recorded()), sample.value)
        && phase == old(phase) && phaseDurationMs == old(phaseDurationMs)
        && phaseStartTime == old(phaseStartTime) && config == old(config)
        && timerDeadline == old(timerDeadline) && samplingArmed
        && sessionStartTime == old(sessionStartTime)
    {
      if !samplingArmed {
        sample := None;
        return;
      }
      var progress := Progress(now, phaseStartTime, phaseDurationMs);
      var rec0 := Recorded();
      var s := gen.Generate(phase, stress, progress, noiseDraw, hrvDraw, now);
      var rec := Record(rec0, s);
      history, startMetrics := rec.history, rec.startMetrics;
      assert Valid();
      sample := Some(s);
    }

    /** resetSession: clear the history, the start metrics and the session start time. */
    method Reset()
      requires Valid()
      modifies this
      ensures Valid()
      ensures history == [] && startMetrics == None && sessionStartTime == None
      ensures phase == old(phase) && phaseDurationMs == old(phaseDurationMs)
      ensures phaseStartTime == old(phaseStartTime) && config == old(config)
      ensures timerDeadline == old(timerDeadline) && samplingArmed == old(samplingArmed)
    {
      history := [];
      startMetrics := None;
      sessionStartTime := None;
    }
  }

  /** A box-breathing session without adaptivity: the phases and durations
      seen over the first 16 seconds are INHALE, HOLD_IN, EXHALE, HOLD_OUT at
      4000 ms each, then INHALE again; each timer is armed for the next
      4-second boundary, and fires exactly there. */
  method BoxSessionScenario() returns (phases: seq<Phase>, durations: seq<real>, deadlines: seq<real>)
    ensures phases == [Inhale, HoldIn, Exhale, HoldOut, Inhale]
    ensures durations == [4000.0, 4000.0, 4000.0, 4000.0, 4000.0]
    ensures deadlines == [4000.0, 8000.0, 12000.0, 16000.0, 20000.0]
  {
    var cfg := Config(BreathingPatterns[Box], false, 10.0);
    CatalogIsComplete(Box);
    var e := new Engine(cfg);
    var _ := e.Start(0, cfg);
    phases, durations, deadlines := [e.phase], [e.phaseDurationMs], [e.timerDeadline.value];
    var t := 0;
    while |phases| < 5
      invariant e.Valid() && e.config == cfg
      invariant 1 <= |phases| <= 5 && |durations| == |phases| && |deadlines| == |phases|
      invariant t == 4000 * (|phases| - 1)
      invariant e.timerDeadline == Some((t + 4000) as real)
      invariant phases == [Inhale, HoldIn, Exhale, HoldOut, Inhale][..|phases|]
      invariant durations == [4000.0, 4000.0, 4000.0, 4000.0, 4000.0][..|phases|]
      invariant deadlines == [4000.0, 8000.0, 12000.0, 16000.0, 20000.0][..|phases|]
      invariant e.phase == phases[|phases| - 1]
      decreases 5 - |phases|
    {
      t := t + 4000;
      var _ := e.PhaseTimerFired(t, None);
      phases, durations, deadlines := phases + [e.phase], durations + [e.phaseDurationMs], deadlines + [e.timerDeadline.value];
    }
  }
}
