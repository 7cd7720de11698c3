/** Local persistence of finished sessions and the crisis plan, and the
    aggregate statistics over the stored sessions. Browser storage is an
    in-memory cell per key; wall-clock days are UTC days. */
module StorageService {
  import opened Types
  import opened JsMath

  datatype SavedSession = SavedSession(
    id: string,
    timestamp: int,         // ms since the epoch
    durationSeconds: int,
    patternName: string,
    vagalScore: int)

  datatype AggregatedStats = AggregatedStats(
    totalSessions: nat,
    totalMinutes: int,
    currentStreak: nat,
    lastSessionDate: Option<int>,
    averageVagalScore: int)

  /** The two storage keys; `None` means the key was never written. */
  class Store {
    var sessionsItem: Option<seq<SavedSession>>
    var crisisPlanItem: Option<string>

    constructor ()
      ensures sessionsItem == None && crisisPlanItem == None
    {
      sessionsItem := None;
      crisisPlanItem := None;
    }

    /** getHistory: the stored list, newest first, or empty when nothing was stored. */
    function History(): (h: seq<SavedSession>)
      reads this
      ensures sessionsItem.None? ==> h == []
      ensures sessionsItem.Some? ==> h == sessionsItem.value
    {
      if sessionsItem.Some? then sessionsItem.value else []
    }

    /** getCrisisPlan: the stored plan, or "" when none was stored. */
    function CrisisPlan(): (plan: string)
      reads this
      ensures crisisPlanItem.None? ==> plan == ""
      ensures crisisPlanItem.Some? ==> plan == crisisPlanItem.value
    {
      if crisisPlanItem.Some? then crisisPlanItem.value else ""
    }

    /** saveSession: prepend; earlier sessions keep their order. */
    method SaveSession(session: SavedSession)
      modifies this
      ensures History() == [session] + old(History())
      ensures History()[0] == session && History()[1..] == old(History())
      ensures crisisPlanItem == old(crisisPlanItem)
    {
      var existing := History();
      sessionsItem := Some([session] + existing);
    }

    /** getAggregatedStats: the statistics of what `getHistory` returns now. */
    method Stats(now: int) returns (stats: AggregatedStats)
      ensures stats.totalSessions == |History()|
      ensures stats.totalMinutes == SumDurations(History()) / 60
      ensures IsStreak(History(), now, stats.currentStreak)
      ensures stats.currentStreak <= |History()|
      ensures stats.lastSessionDate == if History() == [] then None else Some(History()[0].timestamp)
      ensures stats.averageVagalScore == AverageScore(History())
    {
      var sessions := History();
      stats := GetAggregatedStats(sessions, now);
    }

    /** saveCrisisPlan: the next getCrisisPlan returns `plan`. */
    method SaveCrisisPlan(plan: string)
      modifies this
      ensures CrisisPlan() == plan
      ensures sessionsItem == old(sessionsItem)
    {
      crisisPlanItem := Some(plan);
    }
  }

  // ---------------------------------------------------------------------------
  // Totals and average
  // ---------------------------------------------------------------------------

  function SumDurations(ss: seq<SavedSession>): int
  {
    if ss == [] then 0 else ss[0].durationSeconds + SumDurations(ss[1..])
  }

  function SumScores(ss: seq<SavedSession>): int
  {
    if ss == [] then 0 else ss[0].vagalScore + SumScores(ss[1..])
  }

  /** The lowest and highest score of a non-empty list. */
  function MinScore(ss: seq<SavedSession>): (m: int)
    requires ss != []
    ensures forall i :: 0 <= i < |ss| ==> m <= ss[i].vagalScore
    ensures exists i :: 0 <= i < |ss| && m == ss[i].vagalScore
  {
    if |ss| == 1 then ss[0].vagalScore
    else
      var m := MinScore(ss[1..]);
      assert forall i :: 1 <= i < |ss| ==> ss[i] == ss[1..][i - 1];
      if ss[0].vagalScore <= m then ss[0].vagalScore else m
  }

  function MaxScore(ss: seq<SavedSession>): (m: int)
    requires ss != []
    ensures forall i :: 0 <= i < |ss| ==> ss[i].vagalScore <= m
    ensures exists i :: 0 <= i < |ss| && m == ss[i].vagalScore
  {
    if |ss| == 1 then ss[0].vagalScore
    else
      var m := MaxScore(ss[1..]);
      assert forall i :: 1 <= i < |ss| ==> ss[i] == ss[1..][i - 1];
      if ss[0].vagalScore >= m then ss[0].vagalScore else m
  }

  /** A sum of scores each at least `lo` is at least n * lo. */
  lemma {:induction false} SumScoresAtLeast(ss: seq<SavedSession>, lo: int)
    requires forall i :: 0 <= i < |ss| ==> lo <= ss[i].vagalScore
    ensures |ss| * lo <= SumScores(ss)
  {
    if ss != [] {
      SumScoresAtLeast(ss[1..], lo);
      assert |ss| * lo == (|ss| - 1) * lo + lo;
    }
  }

  /** A sum of scores each at most `hi` is at most n * hi. */
  lemma {:induction false} SumScoresAtMost(ss: seq<SavedSession>, hi: int)
    requires forall i :: 0 <= i < |ss| ==> ss[i].vagalScore <= hi
    ensures SumScores(ss) <= |ss| * hi
  {
    if ss != [] {
      SumScoresAtMost(ss[1..], hi);
      assert |ss| * hi == (|ss| - 1) * hi + hi;
    }
  }

  /** Math.round of the mean score, 0 for no sessions. */
  function AverageScore(ss: seq<SavedSession>): (avg: int)
    ensures ss == [] ==> avg == 0
    ensures ss != [] ==> MinScore(ss) <= avg <= MaxScore(ss)
  {
    if ss == [] then 0
    else
      var mean := SumScores(ss) as real / |ss| as real;
      MeanScoreBetween(ss);
      Round(mean)
  }

  /** The exact mean of a non-empty list lies between its lowest and highest score. */
  lemma MeanScoreBetween(ss: seq<SavedSession>)
    requires ss != []
    ensures MinScore(ss) as real <= SumScores(ss) as real / |ss| as real <= MaxScore(ss) as real
  {
    var sum, n, lo, hi := SumScores(ss), |ss|, MinScore(ss), MaxScore(ss);
    SumScoresAtLeast(ss, lo);
    SumScoresAtMost(ss, hi);
    MeanBetween(sum, n, lo, hi);
  }

  /** A sum between n * lo and n * hi has its mean between lo and hi. */
  lemma MeanBetween(sum: int, n: int, lo: int, hi: int)
    requires n > 0 && n * lo <= sum <= n * hi
    ensures lo as real <= sum as real / n as real <= hi as real
  {
    var nr := n as real;
    assert sum as real / nr - lo as real == (sum - n * lo) as real / nr;
    assert hi as real - sum as real / nr == (n * hi - sum) as real / nr;
  }

  // ---------------------------------------------------------------------------
  // Days and the streak
  // ---------------------------------------------------------------------------

  const DayMs: int := 86400000

  /** `new Date(t).setHours(0,0,0,0)`, with the local time zone taken as UTC. */
  function Midnight(t: int): int
  {
    (t / DayMs) * DayMs
  }

  /** The day number of a timestamp (its midnight divided by the day length). */
  function Day(t: int): int
  {
    t / DayMs
  }

  lemma DayMonotone(t: int, u: int)
    requires u <= t
    ensures Day(u) <= Day(t)
  {
  }

  ghost predicate HasSessionOnDay(ss: seq<SavedSession>, d: int)
  {
    exists i :: 0 <= i < |ss| && Day(ss[i].timestamp) == d
  }

  /** The latest timestamp in a non-empty list. */
  function MaxTimestamp(ss: seq<SavedSession>): (m: int)
    requires ss != []
    ensures forall i :: 0 <= i < |ss| ==> ss[i].timestamp <= m
    ensures exists i :: 0 <= i < |ss| && m == ss[i].timestamp
  {
    if |ss| == 1 then ss[0].timestamp
    else
      var m := MaxTimestamp(ss[1..]);
      assert forall i :: 1 <= i < |ss| ==> ss[i] == ss[1..][i - 1];
      if ss[0].timestamp >= m then ss[0].timestamp else m
  }

  /** Reference meaning of the streak: 0 without sessions or when the newest
      session's day is neither today nor yesterday; otherwise the number of
      consecutive days ending at that day that all have a session, the day
      before the run having none. */
  ghost predicate IsStreak(ss: seq<SavedSession>, now: int, k: int)
  {
    if ss == [] then k == 0
    else
      var newest := Day(MaxTimestamp(ss));
      if newest != Day(now) && newest != Day(now) - 1 then k == 0
      else
        && k >= 1
        && (forall d :: newest - k < d <= newest ==> HasSessionOnDay(ss, d))
        && !HasSessionOnDay(ss, newest - k)
  }

  ghost predicate SortedDesc(ss: seq<SavedSession>)
  {
    forall i, j :: 0 <= i < j < |ss| ==> ss[i].timestamp >= ss[j].timestamp
  }

  /** Insert into a list sorted newest first, ahead of equal timestamps. */
  function Insert(x: SavedSession, ss: seq<SavedSession>): (r: seq<SavedSession>)
    ensures multiset(r) == multiset(ss) + multiset{x}
    ensures |r| == |ss| + 1
  {
    if ss == [] || x.timestamp >= ss[0].timestamp then
      [x] + ss
    else
      assert ss == [ss[0]] + ss[1..];
      [ss[0]] + Insert(x, ss[1..])
  }

  /** Inserting keeps every timestamp under a common bound. */
  lemma {:induction false} InsertBelow(x: SavedSession, ss: seq<SavedSession>, t: int)
    requires x.timestamp <= t && forall i :: 0 <= i < |ss| ==> ss[i].timestamp <= t
    ensures forall i :: 0 <= i < |Insert(x, ss)| ==> Insert(x, ss)[i].timestamp <= t
  {
    if ss != [] && x.timestamp < ss[0].timestamp {
      InsertBelow(x, ss[1..], t);
    }
  }

  /** Inserting into a newest-first list keeps it newest first. */
  lemma {:induction false} InsertSorted(x: SavedSession, ss: seq<SavedSession>)
    requires SortedDesc(ss)
    ensures SortedDesc(Insert(x, ss))
  {
    if ss != [] && x.timestamp < ss[0].timestamp {
      InsertSorted(x, ss[1..]);
      InsertBelow(x, ss[1..], ss[0].timestamp);
    }
  }

  /** `[...sessions].sort((a, b) => b.timestamp - a.timestamp)`: newest first,
      the same sessions. */
  function SortByNewest(ss: seq<SavedSession>): (r: seq<SavedSession>)
    ensures SortedDesc(r)
    ensures multiset(r) == multiset(ss)
    ensures |r| == |ss|
  {
    if ss == [] then []
    else
      assert ss == [ss[0]] + ss[1..];
      InsertSorted(ss[0], SortByNewest(ss[1..]));
      Insert(ss[0], SortByNewest(ss[1..]))
  }

  /** A permutation has sessions on the same days. */
  lemma SameDays(ss: seq<SavedSession>, sorted: seq<SavedSession>, d: int)
    requires multiset(sorted) == multiset(ss)
    ensures HasSessionOnDay(ss, d) <==> HasSessionOnDay(sorted, d)
  {
    if HasSessionOnDay(ss, d) {
      var i :| 0 <= i < |ss| && Day(ss[i].timestamp) == d;
      assert ss[i] in multiset(sorted);
      var j :| 0 <= j < |sorted| && sorted[j] == ss[i];
    }
    if HasSessionOnDay(sorted, d) {
      var j :| 0 <= j < |sorted| && Day(sorted[j].timestamp) == d;
      assert sorted[j] in multiset(ss);
      var i :| 0 <= i < |ss| && ss[i] == sorted[j];
    }
  }

  /** The newest-first list starts with the latest timestamp. */
  lemma SortedHeadIsMax(ss: seq<SavedSession>, sorted: seq<SavedSession>)
    requires ss != [] && multiset(sorted) == multiset(ss) && SortedDesc(sorted)
    ensures |sorted| == |ss| && sorted[0].timestamp == MaxTimestamp(ss)
  {
    assert |sorted| == |multiset(sorted)| == |ss|;
    var i :| 0 <= i < |ss| && MaxTimestamp(ss) == ss[i].timestamp;
    assert ss[i] in multiset(sorted);
    var j :| 0 <= j < |sorted| && sorted[j] == ss[i];
    assert sorted[0] in multiset(ss);
    var k :| 0 <= k < |ss| && ss[k] == sorted[0];
  }

  lemma NoSessionOnDay(ss: seq<SavedSession>, d: int)
    requires forall k :: 0 <= k < |ss| ==> Day(ss[k].timestamp) != d
    ensures !HasSessionOnDay(ss, d)
  {
  }

  /** A day covered by a prefix stays covered by a longer prefix. */
  lemma CoveredDaysGrow(short: seq<SavedSession>, long: seq<SavedSession>, lo: int, hi: int)
    requires short <= long
    requires forall d :: lo < d <= hi ==> HasSessionOnDay(short, d)
    ensures forall d :: lo < d <= hi ==> HasSessionOnDay(long, d)
  {
    forall d | lo < d <= hi
      ensures HasSessionOnDay(long, d)
    {
      assert HasSessionOnDay(short, d);
      var k :| 0 <= k < |short| && Day(short[k].timestamp) == d;
      assert long[k] == short[k];
    }
  }

  /** The loop of getAggregatedStats over the sessions sorted newest first:
      skip sessions on the day already counted, count a session on the day
      before, and stop at the first gap. The result is the length of the run
      of consecutive session days ending at the newest day. */
  method CountConsecutiveDays(sorted: seq<SavedSession>) returns (streak: nat)
    requires sorted != [] && SortedDesc(sorted)
    ensures streak >= 1
    ensures forall d :: Day(sorted[0].timestamp) - streak < d <= Day(sorted[0].timestamp) ==> HasSessionOnDay(sorted, d)
    ensures !HasSessionOnDay(sorted, Day(sorted[0].timestamp) - streak)
  {
    ghost var newest := Day(sorted[0].timestamp);
    streak := 1;
    var checkDate := Midnight(sorted[0].timestamp);
    assert HasSessionOnDay(sorted[..1], newest) by {
      assert sorted[..1][0] == sorted[0];
    }
    for i := 1 to |sorted|
      invariant streak >= 1
      invariant checkDate == (newest - (streak - 1)) * DayMs
      invariant Day(sorted[i - 1].timestamp) == newest - (streak - 1)
      invariant forall k :: 0 <= k < i ==> Day(sorted[k].timestamp) >= newest - (streak - 1)
      invariant forall d :: newest - streak < d <= newest ==> HasSessionOnDay(sorted[..i], d)
    {
      var sessionDate := Midnight(sorted[i].timestamp);
      DayMonotone(sorted[i - 1].timestamp, sorted[i].timestamp);
      CoveredDaysGrow(sorted[..i], sorted[..i + 1], newest - streak, newest);
      if sessionDate == checkDate {
        continue;
      }
      if sessionDate == checkDate - DayMs {
        streak := streak + 1;
        checkDate := sessionDate;
        assert sorted[..i + 1][i] == sorted[i];
      } else {
        forall k | i <= k < |sorted|
          ensures Day(sorted[k].timestamp) < newest - streak
        {
          DayMonotone(sorted[i].timestamp, sorted[k].timestamp);
        }
        CoveredDaysGrow(sorted[..i], sorted, newest - streak, newest);
        break;
      }
    }
    assert sorted[..|sorted|] == sorted;
    NoSessionOnDay(sorted, newest - streak);
  }

  /** The streak of getAggregatedStats: 0 unless the newest session is from
      today or yesterday, otherwise the run of consecutive session days. */
  method CurrentStreak(sessions: seq<SavedSession>, now: int) returns (streak: nat)
    ensures IsStreak(sessions, now, streak)
  {
    streak := 0;
    if |sessions| > 0 {
      var sorted := SortByNewest(sessions);
      SortedHeadIsMax(sessions, sorted);
      var today := Midnight(now);
      var lastSessionDay := Midnight(sorted[0].timestamp);
      if lastSessionDay == today || lastSessionDay == today - DayMs {
        streak := CountConsecutiveDays(sorted);
        ghost var newest := Day(sorted[0].timestamp);
        forall d | newest - streak < d <= newest
          ensures HasSessionOnDay(sessions, d)
        {
          SameDays(sessions, sorted, d);
        }
        SameDays(sessions, sorted, newest - streak);
      }
    }
  }

  // ---------------------------------------------------------------------------
  // Bounds on the streak
  // ---------------------------------------------------------------------------

  /** The distinct days on which there is a session. */
  function DaySet(ss: seq<SavedSession>): set<int>
  {
    set i | 0 <= i < |ss| :: Day(ss[i].timestamp)
  }

  lemma {:induction false} DaySetSize(ss: seq<SavedSession>)
    ensures |DaySet(ss)| <= |ss|
  {
    if ss != [] {
      DaySetSize(ss[1..]);
      assert DaySet(ss) == {Day(ss[0].timestamp)} + DaySet(ss[1..]) by {
        forall d | d in DaySet(ss)
          ensures d in {Day(ss[0].timestamp)} + DaySet(ss[1..])
        {
          var i :| 0 <= i < |ss| && d == Day(ss[i].timestamp);
          if i > 0 {
            assert ss[1..][i - 1] == ss[i];
          }
        }
        forall d | d in DaySet(ss[1..])
          ensures d in DaySet(ss)
        {
          var i :| 0 <= i < |ss[1..]| && d == Day(ss[1..][i].timestamp);
          assert ss[1..][i] == ss[i + 1];
        }
      }
    }
  }

  /** The k days ending at `hi`. */
  function Run(hi: int, k: nat): (r: set<int>)
    decreases k
  {
    if k == 0 then {} else {hi} + Run(hi - 1, k - 1)
  }

  lemma {:induction false} RunFacts(hi: int, k: nat)
    ensures |Run(hi, k)| == k
    ensures forall d :: d in Run(hi, k) <==> hi - k < d <= hi
    decreases k
  {
    if k > 0 {
      RunFacts(hi - 1, k - 1);
    }
  }

  /** A streak counts distinct session days, so it never exceeds the number
      of distinct days, which never exceeds the number of sessions. */
  lemma StreakAtMostSessionDays(ss: seq<SavedSession>, now: int, k: nat)
    requires IsStreak(ss, now, k)
    ensures k <= |DaySet(ss)| <= |ss|
  {
    DaySetSize(ss);
    if k > 0 {
      var newest := Day(MaxTimestamp(ss));
      RunFacts(newest, k);
      forall d | d in Run(newest, k)
        ensures d in DaySet(ss)
      {
        assert HasSessionOnDay(ss, d);
        var i :| 0 <= i < |ss| && Day(ss[i].timestamp) == d;
      }
      assert Run(newest, k) <= DaySet(ss);
      SubsetSize(Run(newest, k), DaySet(ss));
    }
  }

  lemma SubsetSize(a: set<int>, b: set<int>)
    requires a <= b
    ensures |a| <= |b|
  {
    assert b == a + (b - a);
  }

  // ---------------------------------------------------------------------------
  // getAggregatedStats
  // ---------------------------------------------------------------------------

  /** `sessions.reduce((acc, s) => acc + s.durationSeconds / 60, 0)` on exact reals. */
  function MinutesSum(ss: seq<SavedSession>): real
  {
    if ss == [] then 0.0 else ss[0].durationSeconds as real / 60.0 + MinutesSum(ss[1..])
  }

  lemma {:induction false} MinutesSumIsTotalOverSixty(ss: seq<SavedSession>)
    ensures MinutesSum(ss) == SumDurations(ss) as real / 60.0
  {
    if ss != [] {
      MinutesSumIsTotalOverSixty(ss[1..]);
    }
  }

  /** Flooring n / 60 over the reals is integer division by 60. */
  lemma FloorOfSixtieth(n: int)
    ensures (n as real / 60.0).Floor == n / 60
  {
    var q, r := n / 60, n % 60;
    assert n as real / 60.0 == q as real + r as real / 60.0;
  }

  /** getAggregatedStats over the stored list (newest first) at time `now`. */
  method GetAggregatedStats(sessions: seq<SavedSession>, now: int) returns (stats: AggregatedStats)
    ensures stats.totalSessions == |sessions|
    ensures stats.totalMinutes == SumDurations(sessions) / 60
    ensures stats.totalMinutes * 60 <= SumDurations(sessions) < (stats.totalMinutes + 1) * 60
    ensures IsStreak(sessions, now, stats.currentStreak)
    ensures stats.currentStreak <= |sessions|
    ensures stats.lastSessionDate == if sessions == [] then None else Some(sessions[0].timestamp)
    ensures stats.averageVagalScore == AverageScore(sessions)
    ensures sessions != [] ==> MinScore(sessions) <= stats.averageVagalScore <= MaxScore(sessions)
  {
    var totalSessions := |sessions|;
    var totalMinutes := MinutesSum(sessions);
    MinutesSumIsTotalOverSixty(sessions);
    FloorOfSixtieth(SumDurations(sessions));
    var currentStreak := CurrentStreak(sessions, now);
    StreakAtMostSessionDays(sessions, now, currentStreak);
    var avgScore := AverageScore(sessions);
    stats := AggregatedStats(
      totalSessions,
      totalMinutes.Floor,
      currentStreak,
      if |sessions| > 0 then Some(sessions[0].timestamp) else None,
      avgScore);
  }
}
