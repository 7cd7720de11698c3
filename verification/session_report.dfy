/** The end-of-session report: heart-rate and HRV deltas, the clamped vagal
    score, the duration display, and the close button that saves once. */
module SessionReport {
  import opened Types
  import opened JsMath
  import StorageService

  /** `data?.heartRate || 0`. */
  function HeartRateOr0(data: Option<Sample>): int
  {
    if data.Some? then data.value.heartRate else 0
  }

  /** `data?.hrv || 0`. */
  function HrvOr0(data: Option<Sample>): int
  {
    if data.Some? then data.value.hrv else 0
  }

  /** Change in heart rate; a missing sample counts as 0. */
  function HrDiff(initial: Option<Sample>, final: Option<Sample>): (d: int)
    ensures initial.Some? && final.Some? ==> d == final.value.heartRate - initial.value.heartRate
    ensures initial.None? && final.Some? ==> d == final.value.heartRate
    ensures initial.Some? && final.None? ==> d == -initial.value.heartRate
    ensures initial.None? && final.None? ==> d == 0
  {
    HeartRateOr0(final) - HeartRateOr0(initial)
  }

  /** Change in HRV; a missing sample counts as 0. */
  function HrvDiff(initial: Option<Sample>, final: Option<Sample>): (d: int)
    ensures initial.Some? && final.Some? ==> d == final.value.hrv - initial.value.hrv
    ensures initial.None? && final.Some? ==> d == final.value.hrv
    ensures initial.Some? && final.None? ==> d == -initial.value.hrv
    ensures initial.None? && final.None? ==> d == 0
  {
    HrvOr0(final) - HrvOr0(initial)
  }

  /** 50 plus twice the HRV gain minus twice the heart-rate rise, clamped to [0, 100]. */
  function VagalScore(hrDiff: int, hrvDiff: int): (score: int)
    ensures 0 <= score <= 100
    ensures hrDiff == 0 && hrvDiff == 0 ==> score == 50
  {
    Clamp(0, 100, 50 + hrvDiff * 2 - hrDiff * 2)
  }

  /** More HRV gain or less heart-rate rise never lowers the score. */
  lemma VagalScoreMonotone(hr1: int, hrv1: int, hr2: int, hrv2: int)
    requires hr2 <= hr1 && hrv1 <= hrv2
    ensures VagalScore(hr1, hrv1) <= VagalScore(hr2, hrv2)
  {
  }

  /** Inside the clamp, each unit of HRV gain adds 2 and each unit of heart-rate rise takes 2. */
  lemma VagalScoreSlope(hrDiff: int, hrvDiff: int)
    requires 0 <= 50 + hrvDiff * 2 - hrDiff * 2 && 50 + (hrvDiff + 1) * 2 - hrDiff * 2 <= 100
    ensures VagalScore(hrDiff, hrvDiff + 1) == VagalScore(hrDiff, hrvDiff) + 2
    ensures VagalScore(hrDiff, hrvDiff) == VagalScore(hrDiff + 1, hrvDiff + 1)
  {
  }

  /** Both samples unchanged gives the neutral score. */
  lemma UnchangedSessionScoresFifty(initial: Sample, final: Sample)
    requires final.heartRate == initial.heartRate && final.hrv == initial.hrv
    ensures VagalScore(HrDiff(Some(initial), Some(final)), HrvDiff(Some(initial), Some(final))) == 50
  {
  }

  /** The report renders only when both samples are present. */
  predicate ReportShown(initial: Option<Sample>, final: Option<Sample>)
  {
    initial.Some? && final.Some?
  }

  /** The "Xm Ys" display: `Math.floor(d / 60)` and JavaScript's `d % 60`,
      whose sign follows `d`. For d >= 0 this splits d exactly. */
  function MinutesSeconds(d: int): (ms: (int, int))
    ensures d >= 0 ==> ms.0 * 60 + ms.1 == d && 0 <= ms.1 < 60 && ms.0 >= 0
    ensures d < 0 ==> -60 < ms.1 <= 0
  {
    (d / 60, if d >= 0 then d % 60 else -((-d) % 60))
  }

  /** The report dialog's props and its `isSaved` flag; `closeCalls` counts the
      calls made to the `onClose` callback. */
  class ReportDialog {
    const initialData: Option<Sample>
    const finalData: Option<Sample>
    const durationSeconds: int
    const patternName: string
    var isSaved: bool
    var closeCalls: nat

    function Score(): (score: int)
    {
      VagalScore(HrDiff(initialData, finalData), HrvDiff(initialData, finalData))
    }

    constructor (initialData: Option<Sample>, finalData: Option<Sample>, durationSeconds: int, patternName: string)
      ensures this.initialData == initialData && this.finalData == finalData
      ensures this.durationSeconds == durationSeconds && this.patternName == patternName
      ensures !isSaved && closeCalls == 0
    {
      this.initialData := initialData;
      this.finalData := finalData;
      this.durationSeconds := durationSeconds;
      this.patternName := patternName;
      isSaved := false;
      closeCalls := 0;
    }

    /** handleClose: save the session the first time only, then call onClose.
        Its button is rendered only when the report is shown.
        `crypto.randomUUID()` and `Date.now()` are the parameters `id` and `now`. */
    method HandleClose(store: StorageService.Store, id: string, now: int)
      requires ReportShown(initialData, finalData)
      modifies this, store
      ensures isSaved && closeCalls == old(closeCalls) + 1
      ensures old(isSaved) ==> store.sessionsItem == old(store.sessionsItem)
      ensures !old(isSaved) ==>
        store.History() == [StorageService.SavedSession(id, now, durationSeconds, patternName, Score())] + old(store.History())
      ensures store.crisisPlanItem == old(store.crisisPlanItem)
    {
      if !isSaved {
        store.SaveSession(StorageService.SavedSession(id, now, durationSeconds, patternName, Score()));
        isSaved := true;
      }
      closeCalls := closeCalls + 1;
    }
  }

  /** Closing a fresh report twice stores exactly one session and calls onClose twice. */
  method CloseTwice(dialog: ReportDialog, store: StorageService.Store, id1: string, id2: string, t1: int, t2: int)
    requires ReportShown(dialog.initialData, dialog.finalData)
    requires !dialog.isSaved && dialog.closeCalls == 0
    modifies dialog, store
    ensures dialog.closeCalls == 2
    ensures |store.History()| == |old(store.History())| + 1
    ensures store.History()[1..] == old(store.History())
    ensures store.History()[0].id == id1 && store.History()[0].vagalScore == dialog.Score()
  {
    dialog.HandleClose(store, id1, t1);
    dialog.HandleClose(store, id2, t2);
  }
}
