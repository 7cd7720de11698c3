# Respiro — breathing engine, biofeedback simulator and session history

Respiro is a guided-breathing web app. A session cycles through four phases: INHALE,
HOLD_IN, EXHALE and HOLD_OUT. Each breathing pattern in a static catalog gives each
phase a base time in seconds. A hold whose base time is 0 is skipped. While the session
runs, a 50 ms tick asks a simulated heart-rate generator for a biofeedback sample. The
samples drive an "adaptive" rule that lengthens some phases by half a second. When the
session ends, a report computes a clamped "vagal score" and saves the session once to
local storage. Aggregate statistics are computed from the stored sessions: totals,
minutes, an average score and a streak of consecutive days.

The Dafny project has one module per source file:

| module | file | source |
|---|---|---|
| `Types` | types.dfy | phases, pattern ids, user states, biofeedback samples (`types.ts`), plus `Option` |
| `JsMath` | js_math.dfy | `Math.round`, `toFixed(1)`, `Math.abs`, `Math.min` and the min/max clamp on JavaScript numbers |
| `Constants` | constants.dfy | the `BREATHING_PATTERNS` catalog, as a constant map |
| `SimulatedBiofeedback` | simulated_biofeedback.dfy | `generateBiofeedbackSample`, as the class `Generator` over the four module-level heart-rate variables |
| `BreathingEngine` | breathing_engine.dfy | `useBreathingEngine`: the next-phase table, the effective-duration rule, the cue labels, and the history and start-metrics bookkeeping. The class `Engine` models the start/stop effect, the phase timer, the sampling tick and `resetSession` |
| `StorageService` | storage_service.dfy | `saveSession`, `getHistory`, `saveCrisisPlan`, `getCrisisPlan` (class `Store`) and `getAggregatedStats`, with its streak loop |
| `SessionReport` | session_report.dfy | the report's differences, the vagal score, the duration display and the save-once close handler (class `ReportDialog`) |
| `ParticleCanvas` | particle_canvas.dfy | `hexToRgb` |

Conventions used throughout:

- Time, randomness and identifiers are parameters. `Date.now()` is `now`. Each
  `Math.random()` draw is a real in [0, 1). `crypto.randomUUID()` is `id`.
- The browser's timers are not modelled. Their effect appears as state: `timerDeadline`
  is the armed phase timer and `samplingArmed` is the running interval. Their firing is
  the method `PhaseTimerFired` or `Tick`.
- localStorage is modelled as two `Option` fields of `Store`: a missing key is `None`.
- "Local midnight" (`new Date(t).setHours(0,0,0,0)`) is abstracted as the UTC midnight
  `t / 86400000 * 86400000`. The day index is `Day(t) = t / 86400000`. This keeps the
  source's fixed 86400000 ms step between days.
- Durations in ms and the generator's heart rates are `real`. Timestamps, stored
  durations and scores are `int`.

Three behaviours of the code shape the model:

- Stopping a session clears the sample history (`hooks/useBreathingEngine.ts:182`); the
  comment on that line weighs keeping it instead, so that a report could be generated.
- The cap test is `prev.length > 120` (`hooks/useBreathingEngine.ts:153`), so the window
  settles at 121 samples, although the comment at line 151 speaks of the last 120 points.
- Each later classification rule overwrites the verdict of the earlier ones
  (`services/simulatedBiofeedback.ts:67-70`). Because the amplitude is tied to the stress
  level (line 28), the label is HYPER_AROUSAL exactly when stress > 0.7, and BALANCED
  otherwise.

## Model

| member | source | states |
|---|---|---|
| JsMath.Round | services/simulatedBiofeedback.ts:60 | `Math.round(x)` is within half a unit of `x`, rounding halves up |
| JsMath.RoundTo1 | services/simulatedBiofeedback.ts:79 | one-decimal rounding gives a whole number of tenths, moves a value by at most 0.05, and keeps a non-negative value non-negative |
| JsMath.RoundTo1Unique | services/simulatedBiofeedback.ts:79 | the one-decimal rounding is the only whole number of tenths in (x − 0.05, x + 0.05] |
| JsMath.Clamp | components/SessionReport.tsx:22-24 | `min(hi, max(lo, x))` lies in [lo, hi]: it is x inside the range, lo below it and hi above it |
| Constants.CatalogIsComplete | constants.ts:11-90 | every pattern id has a catalog entry, and that entry's `id` is its own key |
| Constants.CatalogTimingsNonNegative | constants.ts:18-88 | every phase time of every catalog pattern is non-negative |
| Constants.CatalogBreathsPositive | constants.ts:19-87 | every catalog pattern has INHALE > 0 and EXHALE > 0 |
| Constants.CatalogNamedTimings | constants.ts:18-88 | coherent is 5/0/5/0, box is 4/4/4/4, 4-7-8 is 4/7/8/0 and panic rescue is 3/0/6/1 |
| Constants.OnlyPanicRescueHoldsOutOnly | constants.ts:83-88 | panic rescue is the only pattern with HOLD_OUT > 0 and HOLD_IN = 0, in both directions |
| SimulatedBiofeedback.TargetBaseline | services/simulatedBiofeedback.ts:20 | for stress in [0, 1] the target baseline lies in [60, 100] bpm (its endpoints and its rise with stress are in `StressDirections`) |
| SimulatedBiofeedback.DriftedBaseline | services/simulatedBiofeedback.ts:22 | one call closes exactly 2% of the gap to the target, moving towards it and never past it |
| SimulatedBiofeedback.RsaAmplitude | services/simulatedBiofeedback.ts:28 | for stress in [0, 1] the amplitude lies in [2, 17]; for stress < 0.2 it exceeds 14 (its endpoints and its fall with stress are in `StressDirections`) |
| SimulatedBiofeedback.StressDirections | services/simulatedBiofeedback.ts:19-28 | the target baseline is 60 bpm relaxed and 100 bpm fully stressed and rises with stress; the RSA amplitude is 17 bpm relaxed and 2 bpm fully stressed and falls with stress |
| SimulatedBiofeedback.Evolve | services/simulatedBiofeedback.ts:22-56 | the new baseline is the drifted one; only INHALE writes the remembered maximum and only EXHALE writes the minimum, each to the new heart rate |
| SimulatedBiofeedback.HoldsKeepExtrema | services/simulatedBiofeedback.ts:50-56 | HOLD_IN and HOLD_OUT change neither remembered extremum |
| SimulatedBiofeedback.PreNoiseBands | services/simulatedBiofeedback.ts:44-56 | with progress in [0, 1], the pre-noise rate lies in the phase's band: [b, b+rsa], [max−rsa, max], [max−2, max] or [min, min+2] |
| SimulatedBiofeedback.BaselineStaysInRange | services/simulatedBiofeedback.ts:20-22 | a baseline in [60, 100] stays there for stress in [0, 1] |
| SimulatedBiofeedback.DriftConverges | services/simulatedBiofeedback.ts:22 | after n calls at a fixed stress, the gap to the target is 0.98^n of the initial gap |
| SimulatedBiofeedback.NoisyHeartRate | services/simulatedBiofeedback.ts:59-60 | the reported heart rate is within 1.5 bpm of the pre-noise value |
| SimulatedBiofeedback.DerivedHrv | services/simulatedBiofeedback.ts:63-64 | the HRV tracks five times the RSA amplitude, lying strictly between 5·RSA − 0.5 and 5·RSA + 10.5; for stress in [0, 1] it lies in [10, 95] |
| SimulatedBiofeedback.DetectState | services/simulatedBiofeedback.ts:67-70 | both directions of when each verdict survives the overwrites; DISENGAGED is never produced; with the real amplitude, the verdict is HYPER_AROUSAL iff stress > 0.7 and BALANCED otherwise |
| SimulatedBiofeedback.Generator.constructor | services/simulatedBiofeedback.ts:6-10 | every heart-rate variable starts at 75 |
| SimulatedBiofeedback.Generator.Generate | services/simulatedBiofeedback.ts:12-82 | the variables move as `Evolve` says; the sample carries `now`, the noisy rounded rate, the derived HRV, the one-decimal rounding of abs(max − min) (never negative) and the two-valued state |
| BreathingEngine.NextPhase | hooks/useBreathingEngine.ts:89-99 | the successor in the cycle, skipping a hold whose base time is not positive; a hold is only ever entered when its time is positive |
| BreathingEngine.NextPhaseIsNeverEmpty | hooks/useBreathingEngine.ts:89-99 | with INHALE and EXHALE positive, no transition leads to a phase with no time |
| BreathingEngine.CycleLength | hooks/useBreathingEngine.ts:89-99 | a cycle has 2 to 4 phases |
| BreathingEngine.AdvanceAdd | hooks/useBreathingEngine.ts:85-111 | n+m transitions are n transitions followed by m |
| BreathingEngine.CycleReturnsToInhale | hooks/useBreathingEngine.ts:89-99 | from INHALE, the phase is INHALE again after exactly CycleLength (at most 4) transitions and not before; every phase visited has positive time, and every phase with positive time is visited |
| BreathingEngine.CycleIsPeriodic | hooks/useBreathingEngine.ts:85-111 | the phase sequence repeats with period CycleLength |
| BreathingEngine.LatestHeartRate | hooks/useBreathingEngine.ts:53-54 | a missing sample, or a heart rate of 0, reads as 70 |
| BreathingEngine.LatestRsa | hooks/useBreathingEngine.ts:55 | a missing sample reads as amplitude 0 |
| BreathingEngine.AdaptiveDuration | hooks/useBreathingEngine.ts:46-67 | coherent takes half the cycle, whatever else holds; any other pattern takes exactly base·1000 or base·1000+500 ms, with the +500 exactly when all stretch conditions hold; the result is non-negative for base ≥ 0 and positive for base > 0 |
| BreathingEngine.NoSampleNoStretch | hooks/useBreathingEngine.ts:53-66 | with no sample, or a sample with heart rate 0, a non-coherent pattern keeps its base time |
| BreathingEngine.DistressKeepsBase | hooks/useBreathingEngine.ts:58 | heart rate > 95 with amplitude < 3 keeps the base time |
| BreathingEngine.ScheduledDurationPositive | hooks/useBreathingEngine.ts:103-177 | for a catalog pattern, every scheduled phase duration is positive |
| BreathingEngine.CueFor | hooks/useBreathingEngine.ts:69-81 | the haptic kind is "inhale", "exhale" or "hold" for exactly the matching phases; the voice says "Segure" exactly on holds |
| BreathingEngine.Last | hooks/useBreathingEngine.ts:53 | the last element of the history, or None exactly when it is empty |
| BreathingEngine.Appended | hooks/useBreathingEngine.ts:153-154 | the new sample goes last; the oldest is dropped exactly when the previous length exceeds 120; the result is a suffix of prev + [s], so order is kept, and it stays at most 121 long |
| BreathingEngine.Record | hooks/useBreathingEngine.ts:145-155 | history as `Appended`; the start metrics change exactly when the previous length is 5 and none were captured, and are never cleared by a tick |
| BreathingEngine.RecordAllWindow | hooks/useBreathingEngine.ts:145-155 | after any number of ticks from empty, the history is the last min(n, 121) samples in order |
| BreathingEngine.RecordAllStartMetrics | hooks/useBreathingEngine.ts:149 | after n ticks from empty, the start metrics are the sixth sample if n ≥ 6 and absent otherwise |
| BreathingEngine.Progress | hooks/useBreathingEngine.ts:142-143 | progress is at most 1 and is clamped only from above: it is negative before the phase start and non-negative once the phase has started, and equals 1 exactly when the phase's time has elapsed; before that it is exactly the elapsed time divided by the phase duration |
| BreathingEngine.Engine.constructor | hooks/useBreathingEngine.ts:33-42 | INHALE, 5000 ms, empty history, no start metrics, no session start, nothing armed |
| BreathingEngine.Engine.Start | hooks/useBreathingEngine.ts:164-177 | phase INHALE with its effective duration, clock restarted, timer and interval armed; an existing session start is kept; the history and start metrics are untouched; the INHALE cue is emitted |
| BreathingEngine.Engine.Stop | hooks/useBreathingEngine.ts:178-183 | timer and interval cleared; session start and history cleared; start metrics, phase and duration untouched |
| BreathingEngine.Engine.PhaseTimerFired | hooks/useBreathingEngine.ts:85-111 | a cleared timer does nothing; otherwise the next phase is entered with its effective duration from the latest sample, the clock restarts, the timer is re-armed and that phase's cue is emitted, and nothing else changes |
| BreathingEngine.Engine.Tick | hooks/useBreathingEngine.ts:140-156 | a stopped interval does nothing; otherwise the generator steps at the current progress, the recorded sample carries `now`, the noisy rate, the derived HRV, the non-negative rounded amplitude and the two-valued state, history and start metrics change as `Record` says, and nothing else changes |
| BreathingEngine.Engine.Reset | hooks/useBreathingEngine.ts:190-194 | history, start metrics and session start cleared; everything else untouched |
| BreathingEngine.BoxSessionScenario | hooks/useBreathingEngine.ts:85-177 | a non-adaptive box session goes INHALE, HOLD_IN, EXHALE, HOLD_OUT and back to INHALE, each for 4000 ms, each timer armed for the next 4-second boundary |
| StorageService.Store.constructor | services/storageService.ts:31-45 | nothing is stored at first |
| StorageService.Store.History | services/storageService.ts:31-35 | the stored list, or empty when nothing is stored |
| StorageService.Store.CrisisPlan | services/storageService.ts:42-45 | the stored plan, or "" when none is stored |
| StorageService.Store.SaveSession | services/storageService.ts:22-29 | the new history is the session followed by the previous history in order; the crisis plan is untouched |
| StorageService.Store.Stats | services/storageService.ts:47-88 | the aggregate statistics of the list `getHistory` returns: its length, floor of total seconds over 60, a streak meeting `IsStreak`, the first entry's timestamp and the rounded mean score |
| StorageService.Store.SaveCrisisPlan | services/storageService.ts:37-40 | the plan read back is the one saved; the sessions are untouched |
| StorageService.MinScore | services/storageService.ts:77-79 | a score of the list that no score is below |
| StorageService.MaxScore | services/storageService.ts:77-79 | a score of the list that no score exceeds |
| StorageService.SumScoresAtLeast | services/storageService.ts:78 | n scores each at least lo sum to at least n·lo |
| StorageService.SumScoresAtMost | services/storageService.ts:78 | n scores each at most hi sum to at most n·hi |
| StorageService.MeanScoreBetween | services/storageService.ts:77-79 | the exact mean of a non-empty list lies between its lowest and highest score |
| StorageService.AverageScore | services/storageService.ts:77-86 | 0 for no sessions; otherwise the rounded mean lies between the lowest and highest score |
| StorageService.DayMonotone | services/storageService.ts:57-58 | a later time never falls on an earlier day |
| StorageService.MaxTimestamp | services/storageService.ts:56-58 | the newest timestamp of the list |
| StorageService.Insert | services/storageService.ts:56 | the result holds the list's sessions plus exactly the inserted one |
| StorageService.InsertSorted | services/storageService.ts:56 | inserting into a newest-first list keeps it newest first |
| StorageService.SortByNewest | services/storageService.ts:56 | the copy is sorted newest first and is a permutation of the list |
| StorageService.CountConsecutiveDays | services/storageService.ts:62-73 | on a newest-first list, the count k ≥ 1 is such that the k days ending at the newest day all have a session and the day before them has none |
| StorageService.CurrentStreak | services/storageService.ts:54-75 | the streak meets `IsStreak`: 0 with no sessions or when the newest day is neither today nor yesterday, otherwise the length of the unbroken run of session days ending at the newest day |
| StorageService.DaySetSize | services/storageService.ts:54-75 | there are no more distinct session days than sessions |
| StorageService.RunFacts | services/storageService.ts:62-73 | a run of k days ending at a given day has exactly k days |
| StorageService.StreakAtMostSessionDays | services/storageService.ts:54-75 | streak ≤ number of distinct session days ≤ number of sessions |
| StorageService.MinutesSumIsTotalOverSixty | services/storageService.ts:50 | summing seconds/60 per session gives the total seconds over 60 |
| StorageService.FloorOfSixtieth | services/storageService.ts:83 | the floor of n/60 is integer division by 60 |
| StorageService.GetAggregatedStats | services/storageService.ts:47-88 | total = number of sessions; minutes = floor(total seconds / 60); the streak meets `IsStreak` and is at most the count; the last date is the first stored entry's timestamp, or none; the average is the rounded mean, between the lowest and highest score |
| SessionReport.HrDiff | components/SessionReport.tsx:18 | the final minus the initial heart rate, where a missing sample counts as 0, case by case |
| SessionReport.HrvDiff | components/SessionReport.tsx:19 | the final minus the initial HRV, where a missing sample counts as 0, case by case |
| SessionReport.VagalScore | components/SessionReport.tsx:22-24 | the score lies in [0, 100], and is 50 when neither rate changed |
| SessionReport.VagalScoreMonotone | components/SessionReport.tsx:22-24 | a lower heart-rate change and a higher HRV change never lower the score |
| SessionReport.VagalScoreSlope | components/SessionReport.tsx:22-24 | inside the clamp, one unit more HRV gain adds 2, and one unit each of both changes cancels |
| SessionReport.UnchangedSessionScoresFifty | components/SessionReport.tsx:18-24 | two samples with equal heart rate and HRV score 50 |
| SessionReport.MinutesSeconds | components/SessionReport.tsx:52 | for d ≥ 0, minutes·60 + seconds = d with 0 ≤ seconds < 60; for d < 0 the seconds lie in (−60, 0] (the elapsed count in App.tsx is never negative) |
| SessionReport.ReportDialog.constructor | components/SessionReport.tsx:14-15 | the props are kept and the dialog starts unsaved |
| SessionReport.ReportDialog.HandleClose | components/SessionReport.tsx:26-41 | callable only while the report is shown (both samples present); the first close prepends the session, with its score, to storage; later closes store nothing; every close calls `onClose` |
| SessionReport.CloseTwice | components/SessionReport.tsx:26-41 | closing a shown, fresh report twice stores exactly one session, the first id, and calls `onClose` twice |
| ParticleCanvas.HexValue | components/ParticleCanvas.tsx:29-31 | a hex digit's value, in 0..15 |
| ParticleCanvas.PairValue | components/ParticleCanvas.tsx:29-31 | a two-digit group's value, in 0..255 |
| ParticleCanvas.HexToRgb | components/ParticleCanvas.tsx:26-33 | an accepted string (six hex digits, optionally after one `#`, nothing else) gives each channel its pair's value in 0..255; anything else gives (100, 100, 100) |
| ParticleCanvas.WrongLengthFallsBack | components/ParticleCanvas.tsx:27-32 | shorthand, eight-digit and empty strings fall back to grey |
| ParticleCanvas.LowerKeepsDigits | components/ParticleCanvas.tsx:27 | lower-casing keeps hex digits hex and keeps their value |
| ParticleCanvas.HexToRgbIgnoresCase | components/ParticleCanvas.tsx:27 | lower-casing the input never changes the result |
| ParticleCanvas.HexChar | components/ParticleCanvas.tsx:29-31 | the lower-case digit whose value is v |
| ParticleCanvas.FormatThenParse | components/ParticleCanvas.tsx:27-31 | formatting channels in 0..255 as `#rrggbb` and parsing gives them back |
| ParticleCanvas.HashFormParses | components/ParticleCanvas.tsx:27-31 | `#` and six hex digits parse pair by pair |
| ParticleCanvas.CatalogColoursParse | constants.ts:17-82 | every catalog colour parses to its channels, so the grey fallback is never used for them |

## Left out

- Real timers, effect dependency arrays and React re-rendering are not modelled. The
  timeouts and the interval are the explicit events `PhaseTimerFired` and `Tick`.
- BreathingEngine.Engine.PhaseTimerFired: the sample that adapts the next phase is a
  parameter. In the source, the `switchPhase` chain keeps the closure of the render that
  armed it, so it reads the history as it was at (re)start.
- BreathingEngine.Engine.Start: the configuration (pattern, adaptivity, cycle length) is
  passed at start. The chain of phase timers uses it until the next start, as the
  closure does.
- Audio (`AudioService`), speech (`TTSService`) and vibration (`HapticService`) are not
  modelled. `triggerEffects` is modelled only as the phase-to-cue mapping `CueFor`.
- The sin/cos `modulation` value in the generator is never used and is not modelled.
  The unused module variable `currentPhaseProgress` is also left out.
- JavaScript floating point is not modelled: the model uses exact reals. `toFixed(1)`
  followed by `parseFloat` is modelled as round-half-up to one decimal (`RoundTo1`).
  Halfway cases that binary doubles round differently are not captured.
- StorageService: local-time midnight and daylight-saving days are abstracted as UTC
  days (`Day`). The `typeof window === 'undefined'` guard (server rendering) is not
  modelled. JSON serialisation is not modelled: the list is stored as a value.
- StorageService.GetAggregatedStats: the average rounding is `Round` on the exact mean.
  Rounding of the real quotient in binary floating point is not modelled.
- StorageService.CurrentStreak: the model sorts with an insertion sort
  (`SortByNewest`). The source uses `Array.prototype.sort`, which is not part of this
  model; only its result (sorted newest first, a permutation) is used.
- The rest of `components/ParticleCanvas.tsx` is not modelled: the canvas animation,
  `Math.random`, `sqrt` and `requestAnimationFrame`.
- How `App.tsx` wires the report to the engine's history is not part of this model. The
  engine clears its history on stop, so the report's final sample depends on that wiring.
- Only ASCII letters are lower-cased in `HexToRgbIgnoresCase`. The `i` flag's full
  Unicode case folding is not needed, because every hex digit is ASCII.
- Constants.Pattern: the catalog's `description` and `mechanism` text fields are not
  modelled. They are display text, and no logic in the core reads them.
