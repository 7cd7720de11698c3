/** Shared vocabulary of the breathing engine: the phases, pattern ids,
    arousal states and the biofeedback sample record. */
module Types {

  /** A value that may be absent (`T | null` / `x?.field` in the app). */
  datatype Option<+T> = None | Some(value: T)

  /** The four breathing phases, in their cyclic order. */
  datatype Phase = Inhale | HoldIn | Exhale | HoldOut {
    predicate IsHold() { this == HoldIn || this == HoldOut }
  }

  /** Identifiers of the catalog patterns. */
  datatype PatternId = Coherent | Box | Relax478 | Soldier | Performance | PanicRescue

  /** Arousal classification attached to every sample. */
  datatype UserState = HyperArousal | Balanced | HypoArousal | Disengaged

  /** One synthetic biofeedback sample (BiofeedbackData). */
  datatype Sample = Sample(
    timestamp: int,      // ms since the epoch
    heartRate: int,      // beats per minute, rounded
    hrv: int,            // derived rMSSD surrogate, rounded
    rsaAmplitude: real,  // |lastMax - lastMin|, rounded to one decimal
    state: UserState)
}
