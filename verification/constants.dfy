/** The static catalog of breathing patterns (BREATHING_PATTERNS). */
module Constants {
  import opened Types

  /** Base duration of each phase, in whole seconds. */
  datatype Timing = Timing(inhale: int, holdIn: int, exhale: int, holdOut: int) {
    /** The `baseTiming[phase]` lookup. */
    function At(p: Phase): int {
      match p
      case Inhale => inhale
      case HoldIn => holdIn
      case Exhale => exhale
      case HoldOut => holdOut
    }
  }

  /** A catalog entry; description and mechanism texts are display-only and omitted. */
  datatype Pattern = Pattern(id: PatternId, name: string, color: string, baseTiming: Timing)

  const BreathingPatterns: map<PatternId, Pattern> := map[
    Coherent := Pattern(Coherent, "Coerência (5:5)", "#22d3ee", Timing(5, 0, 5, 0)),
    Box := Pattern(Box, "Respiração Quadrada (4:4:4:4)", "#a78bfa", Timing(4, 4, 4, 4)),
    Relax478 := Pattern(Relax478, "Sono Profundo (4-7-8)", "#60a5fa", Timing(4, 7, 8, 0)),
    Soldier := Pattern(Soldier, "Descanso do Soldado (4:8)", "#34d399", Timing(4, 0, 8, 0)),
    Performance := Pattern(Performance, "Ativação (2:2)", "#fb923c", Timing(2, 0, 2, 0)),
    PanicRescue := Pattern(PanicRescue, "Resgate de Pânico (3:6)", "#f87171", Timing(3, 0, 6, 1))
  ]

  /** `p` is one of the catalog's entries (the only patterns the app ever plays). */
  predicate InCatalog(p: Pattern) {
    p.id in BreathingPatterns && BreathingPatterns[p.id] == p
  }

  /** Every id has an entry, and each entry's `id` is its own key. */
  lemma CatalogIsComplete(id: PatternId)
    ensures id in BreathingPatterns && BreathingPatterns[id].id == id
    ensures InCatalog(BreathingPatterns[id])
  {
  }

  /** Every phase timing in the catalog is a non-negative whole number of seconds. */
  lemma CatalogTimingsNonNegative(p: Pattern, ph: Phase)
    requires InCatalog(p)
    ensures p.baseTiming.At(ph) >= 0
  {
  }

  /** Inhale and exhale are never empty, so the unconditional transitions into
      them never schedule a zero-length phase. */
  lemma CatalogBreathsPositive(p: Pattern)
    requires InCatalog(p)
    ensures p.baseTiming.inhale > 0 && p.baseTiming.exhale > 0
  {
  }

  /** The timings the named patterns advertise. */
  lemma CatalogNamedTimings()
    ensures BreathingPatterns[Coherent].baseTiming == Timing(5, 0, 5, 0)
    ensures BreathingPatterns[Box].baseTiming == Timing(4, 4, 4, 4)
    ensures BreathingPatterns[Relax478].baseTiming == Timing(4, 7, 8, 0)
    ensures BreathingPatterns[PanicRescue].baseTiming == Timing(3, 0, 6, 1)
  {
  }

  /** Panic rescue is the only pattern that holds after exhaling without holding after inhaling. */
  lemma OnlyPanicRescueHoldsOutOnly(p: Pattern)
    requires InCatalog(p)
    ensures (p.baseTiming.holdOut > 0 && p.baseTiming.holdIn == 0) <==> p.id == PanicRescue
  {
  }
}
