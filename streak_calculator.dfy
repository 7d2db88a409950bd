/**
 * lib/utils/streakCalculator.ts: current and longest streaks, the start of
 * the current streak, risk flags, completion rate and consistency score.
 * `today` is the day `getTodayStr()` reads from the clock.
 */
module StreakCalculator {
  import opened Wrappers
  import opened Seqs
  import opened Sorting
  import opened Arith
  import opened DateUtils
  import opened HabitTypes

  /** The default `sort()` on `YYYY-MM-DD` strings orders them by day. */
  function DayBefore(a: Day, b: Day): bool { a < b }

  lemma DayBeforeIsStrictWeakOrder()
    ensures StrictWeakOrder(DayBefore)
  {
  }

  /** `[...dates].sort()`: the same days, oldest first. */
  function SortedDays(dates: seq<Day>): (r: seq<Day>)
    ensures multiset(r) == multiset(dates)
    ensures forall i, j :: 0 <= i < j < |r| ==> r[i] <= r[j]
  {
    SortPermutes(dates, DayBefore);
    DayBeforeIsStrictWeakOrder();
    SortSorted(dates, DayBefore);
    Sort(dates, DayBefore)
  }

  /** `[...dates].sort().reverse()`: the same days, newest first. */
  function NewestFirst(dates: seq<Day>): (r: seq<Day>)
    ensures multiset(r) == multiset(dates)
    ensures forall i, j :: 0 <= i < j < |r| ==> r[i] >= r[j]
    ensures |r| > 0 ==> r[0] == Max(dates)
  {
    var s := SortedDays(dates);
    if |s| > 0 then LastIsMax(dates, s); Reverse(s) else Reverse(s)
  }

  lemma LastIsMax(dates: seq<Day>, s: seq<Day>)
    requires |s| > 0 && multiset(s) == multiset(dates)
    requires forall i, j :: 0 <= i < j < |s| ==> s[i] <= s[j]
    ensures s[|s| - 1] == Max(dates)
  {
    assert s[|s| - 1] in multiset(dates);
    assert Max(dates) in multiset(s);
  }

  /** How many of the days d, d - 1, d - 2, ... are completed without a gap. */
  function RunBack(dates: seq<Day>, d: Day): (n: nat)
    ensures forall e :: d - n < e <= d ==> e in dates
    ensures d - n !in dates
    decreases if d in dates then d - Min(dates) + 1 else 0
  {
    if d in dates then 1 + RunBack(dates, d - 1) else 0
  }

  /**
   * What calculateCurrentStreak returns. When the newest completion is today,
   * today is counted once up front and once more by the walk, which starts
   * its look-ups at getNextDay(yesterday), that is today; otherwise the result
   * is 0, also when the newest completion is yesterday, since the walk then
   * looks for today first and stops at once.
   */
  function CurrentStreak(dates: seq<Day>, today: Day): (r: nat)
    ensures r > 0 <==> |dates| > 0 && Max(dates) == today
    ensures r > 0 ==> today in dates && r == RunBack(dates, today) + 1 && r >= 2
  {
    if |dates| > 0 && Max(dates) == today then 1 + RunBack(dates, today) else 0
  }

  /** The loop of calculateCurrentStreak, with `indexOf` on the newest-first list. */
  method CalculateCurrentStreak(h: Habit, today: Day) returns (streak: nat)
    ensures streak == CurrentStreak(h.completedDates, today)
  {
    var dates := h.completedDates;
    if |dates| == 0 {
      return 0;
    }
    var sortedDates := NewestFirst(dates);
    assert forall x :: x in sortedDates <==> x in dates by {
      forall x ensures x in sortedDates <==> x in dates {
        assert x in sortedDates <==> x in multiset(sortedDates);
      }
    }
    streak := 0;
    var currentDate := today;
    if sortedDates[0] == today {
      streak := streak + 1;
      currentDate := PrevDay(currentDate);
    } else {
      var yesterday := PrevDay(today);
      if sortedDates[0] == yesterday {
        currentDate := yesterday;
        assert today !in dates;
      } else {
        return 0;
      }
    }
    ghost var probe := NextDay(currentDate);
    var dateIndex := IndexOf(sortedDates, NextDay(currentDate));
    while dateIndex != -1
      invariant dateIndex == IndexOf(sortedDates, probe)
      invariant streak + RunBack(dates, probe) == CurrentStreak(dates, today)
      decreases RunBack(dates, probe)
    {
      streak := streak + 1;
      currentDate := sortedDates[dateIndex];
      probe := PrevDay(currentDate);
      dateIndex := IndexOf(sortedDates, PrevDay(currentDate));
    }
  }

  /** The length of the run of neighbours exactly one day apart that ends at position `i`. */
  function RunEndingAt(s: seq<Day>, i: nat): (n: nat)
    requires i < |s|
    ensures 1 <= n <= i + 1
  {
    if i > 0 && s[i] - s[i - 1] == 1 then RunEndingAt(s, i - 1) + 1 else 1
  }

  /** The run ending at `i` is made of consecutive days and cannot be extended to the left. */
  lemma {:induction false} RunEndingAtIsRun(s: seq<Day>, i: nat)
    requires i < |s|
    ensures forall j :: i - RunEndingAt(s, i) < j <= i ==> s[j] == s[i] - (i - j)
    ensures RunEndingAt(s, i) <= i ==> s[i - RunEndingAt(s, i) + 1] - s[i - RunEndingAt(s, i)] != 1
  {
    if i > 0 && s[i] - s[i - 1] == 1 {
      RunEndingAtIsRun(s, i - 1);
    }
  }

  /** The longest of the runs ending at positions 0 .. n - 1. */
  function LongestRunIn(s: seq<Day>, n: nat): (m: nat)
    requires 0 < n <= |s|
    ensures 1 <= m <= n
  {
    if n == 1 then RunEndingAt(s, 0)
    else
      var m := LongestRunIn(s, n - 1);
      var c := RunEndingAt(s, n - 1);
      if c > m then c else m
  }

  /** LongestRunIn is the maximum of the runs, and is attained. */
  lemma {:induction false} LongestRunInIsMax(s: seq<Day>, n: nat)
    requires 0 < n <= |s|
    ensures forall i :: 0 <= i < n ==> RunEndingAt(s, i) <= LongestRunIn(s, n)
    ensures exists i :: 0 <= i < n && RunEndingAt(s, i) == LongestRunIn(s, n)
  {
    if n > 1 {
      LongestRunInIsMax(s, n - 1);
      var k :| 0 <= k < n - 1 && RunEndingAt(s, k) == LongestRunIn(s, n - 1);
      if RunEndingAt(s, n - 1) <= LongestRunIn(s, n - 1) {
        assert RunEndingAt(s, k) == LongestRunIn(s, n);
      } else {
        assert RunEndingAt(s, n - 1) == LongestRunIn(s, n);
      }
    } else {
      assert RunEndingAt(s, 0) == LongestRunIn(s, n);
    }
  }

  /** One step of the scan: the run ending at `i` and the longest so far. */
  lemma LongestRunStep(s: seq<Day>, i: nat)
    requires 0 < i < |s|
    ensures RunEndingAt(s, i) == if s[i] - s[i - 1] == 1 then RunEndingAt(s, i - 1) + 1 else 1
    ensures LongestRunIn(s, i + 1)
         == if RunEndingAt(s, i) > LongestRunIn(s, i) then RunEndingAt(s, i) else LongestRunIn(s, i)
  {
  }

  /**
   * What calculateLongestStreak returns: the longest stretch of the sorted
   * list whose neighbours are exactly one day apart (a repeated day breaks
   * the stretch), 0 for no completions.
   */
  function LongestStreak(dates: seq<Day>): (r: nat)
    ensures r == 0 <==> dates == []
    ensures r <= |dates|
    ensures dates != [] ==>
      var s := SortedDays(dates);
      (forall i :: 0 <= i < |s| ==> RunEndingAt(s, i) <= r) &&
      (exists i :: 0 <= i < |s| && RunEndingAt(s, i) == r)
  {
    if dates == [] then 0
    else
      LongestRunInIsMax(SortedDays(dates), |dates|);
      LongestRunIn(SortedDays(dates), |dates|)
  }

  /** The loop of calculateLongestStreak. */
  method CalculateLongestStreak(h: Habit) returns (longest: nat)
    ensures longest == LongestStreak(h.completedDates)
  {
    if |h.completedDates| == 0 {
      return 0;
    }
    var sortedDates := SortedDays(h.completedDates);
    var maxStreak := 1;
    var currentStreak := 1;
    for i := 1 to |sortedDates|
      invariant currentStreak == RunEndingAt(sortedDates, i - 1)
      invariant maxStreak == LongestRunIn(sortedDates, i)
    {
      var prevDate := sortedDates[i - 1];
      var currDate := sortedDates[i];
      LongestRunStep(sortedDates, i);
      if DateDiff(Some(currDate), Some(prevDate)) == 1 {
        currentStreak := currentStreak + 1;
        maxStreak := if maxStreak >= currentStreak then maxStreak else currentStreak;
      } else {
        currentStreak := 1;
      }
    }
    return maxStreak;
  }

  /**
   * A single completion made today: the current streak is 2 and the longest
   * streak is 1, so "longest >= current" does not hold.
   */
  lemma TodayCountedTwice(today: Day)
    ensures CurrentStreak([today], today) == 2
    ensures LongestStreak([today]) == 1
  {
    assert today - 1 !in [today];
    assert RunBack([today], today) == 1 + RunBack([today], today - 1);
  }

  /**
   * getStreakStartDate: `undefined` (None) for no current streak, otherwise
   * the element `currentStreak` places from the end of the newest-first
   * list, or one further when the newest completion is not today.
   */
  function StreakStartDate(h: Habit, today: Day): (r: Option<Day>)
    ensures CurrentStreak(h.completedDates, today) == 0 ==> r == None
    ensures r.Some? ==> r.value in h.completedDates
  {
    var currentStreak := CurrentStreak(h.completedDates, today);
    if currentStreak == 0 then None
    else
      var sortedDates := NewestFirst(h.completedDates);
      var r := if sortedDates[0] == today then At(sortedDates, |sortedDates| - currentStreak)
               else At(sortedDates, |sortedDates| - currentStreak - 1);
      assert r.Some? ==> r.value in multiset(sortedDates);
      r
  }

  /**
   * The second branch of getStreakStartDate is never taken: a non-zero streak
   * means the newest completion is today, so the index used is always
   * `length - currentStreak`.
   */
  lemma StreakStartUsesTodayBranch(h: Habit, today: Day)
    requires CurrentStreak(h.completedDates, today) > 0
    ensures NewestFirst(h.completedDates)[0] == today
    ensures StreakStartDate(h, today)
         == At(NewestFirst(h.completedDates), |h.completedDates| - CurrentStreak(h.completedDates, today))
  {
  }

  /**
   * When every completion is a distinct day of the run ending today, the
   * double-counted streak points one place before the list, and the start
   * date is `undefined`.
   */
  lemma StreakStartUndefinedForWholeRun(h: Habit, n: nat, today: Day)
    requires n > 0 && h.completedDates == LastNDays(n, today)
    ensures StreakStartDate(h, today) == None
  {
    var dates := LastNDays(n, today);
    RunBackOfWindow(n, today, n);
    assert Max(dates) == today by {
      assert dates[n - 1] == today;
    }
    assert |NewestFirst(dates)| == n by {
      assert |multiset(NewestFirst(dates))| == |multiset(dates)|;
    }
  }

  /** Walking back from today through the window of the last n days covers exactly n days. */
  lemma {:induction false} RunBackOfWindow(n: nat, today: Day, k: nat)
    requires k <= n
    ensures RunBack(LastNDays(n, today), today - (n - k)) == k
    decreases k
  {
    var dates := LastNDays(n, today);
    var d := today - (n - k);
    if k == 0 {
      assert d !in dates;
    } else {
      assert d in dates;
      RunBackOfWindow(n, today, k - 1);
    }
  }

  /**
   * isStreakAtRisk: a streak above 3 not yet extended today is at risk when
   * yesterday was completed. Under the as-written current streak it never is.
   */
  function IsStreakAtRisk(h: Habit, today: Day): (r: bool)
    ensures !r
  {
    var currentStreak := CurrentStreak(h.completedDates, today);
    var completedToday := today in h.completedDates;
    var completedYesterday := PrevDay(today) in h.completedDates;
    if currentStreak > 3 && !completedToday then completedYesterday else false
  }

  datatype StreakRisk = StreakRisk(habitId: string, riskLevel: RiskLevel)

  /** The per-habit arm of getStreakRisks. */
  function StreakRiskOf(h: Habit, today: Day): (r: StreakRisk)
    ensures r.habitId == h.id
    ensures r.riskLevel == Low
  {
    var streak := CurrentStreak(h.completedDates, today);
    var completedToday := today in h.completedDates;
    if completedToday then StreakRisk(h.id, Low)
    else if streak == 0 then StreakRisk(h.id, Low)
    else if streak >= 14 then StreakRisk(h.id, High)
    else if streak >= 7 then StreakRisk(h.id, Medium)
    else StreakRisk(h.id, Low)
  }

  /** getStreakRisks: one entry per active habit, in order; every level is low. */
  function GetStreakRisks(habits: seq<Habit>, today: Day): (r: seq<StreakRisk>)
    ensures |r| == |ActiveHabits(habits)|
    ensures forall i :: 0 <= i < |r| ==>
      r[i].habitId == ActiveHabits(habits)[i].id && r[i].riskLevel == Low
  {
    var active := ActiveHabits(habits);
    seq(|active|, i requires 0 <= i < |active| => StreakRiskOf(active[i], today))
  }

  /** How many of today, today - 1, ..., today - (k - 1) are completed. */
  function WindowHits(dates: seq<Day>, today: Day, k: nat): (n: nat)
    ensures n <= k
    ensures dates == [] ==> n == 0
  {
    if k == 0 then 0
    else WindowHits(dates, today, k - 1) + (if today - (k - 1) in dates then 1 else 0)
  }

  /**
   * getCompletionRate: completed days among the last `days` days, divided by
   * `days`. Division 0 / 0 is NaN (None); a negative `days` runs no iteration
   * and gives 0 / days, that is 0.
   */
  method GetCompletionRate(h: Habit, days: int, today: Day) returns (rate: Option<real>)
    ensures rate.None? <==> days == 0
    ensures days > 0 ==> rate == Some(WindowHits(h.completedDates, today, days) as real / days as real)
    ensures days > 0 ==> 0.0 <= rate.value <= 1.0
    ensures days < 0 ==> rate == Some(0.0)
  {
    var completedCount := 0;
    var i := 0;
    while i < days
      invariant days >= 0 ==> 0 <= i <= days
      invariant days < 0 ==> i == 0
      invariant completedCount == WindowHits(h.completedDates, today, i)
    {
      var date := today - i;
      if date in h.completedDates {
        completedCount := completedCount + 1;
      }
      i := i + 1;
    }
    if days == 0 {
      return None;
    }
    if days > 0 {
      MeanBounds(completedCount, days, 0, 1);
    }
    return Some(completedCount as real / days as real);
  }

  /**
   * calculateConsistencyScore: completions per day since creation (at least
   * one day) plus 2 points per streak day up to 20, rounded and capped at 100.
   */
  function ConsistencyScore(h: Habit, today: Day): (score: int)
    ensures 0 <= score <= 100
    ensures h.completedDates == [] ==> score == 0
  {
    if |h.completedDates| == 0 then 0
    else
      var diff := DaysBetween(today * MS_PER_DAY, h.createdAt);
      var daysSinceCreation := if diff >= 1 then diff else 1;
      var completionRate := |h.completedDates| as real / daysSinceCreation as real;
      var currentStreak := CurrentStreak(h.completedDates, today);
      var streakBonus := MinReal(currentStreak as real * 0.02, 0.2);
      var score := Round((completionRate + streakBonus) * 100.0);
      if score <= 100 then score else 100
  }

  /**
   * The score in closed form: the completion percentage rounded, plus 2
   * points per streak day up to 20, capped at 100.
   */
  function ConsistencyOf(count: nat, span: int, streak: nat): int
    requires span >= 1
  {
    var raw := Round(100.0 * count as real / span as real) + (if 2 * streak <= 20 then 2 * streak else 20);
    if raw <= 100 then raw else 100
  }

  /** The days since creation the score divides by: at least one. */
  function SpanDays(h: Habit, today: Day): (span: int)
    ensures span >= 1
  {
    var diff := DaysBetween(today * MS_PER_DAY, h.createdAt);
    if diff >= 1 then diff else 1
  }

  /**
   * The bonus is a whole number of points, so the score is the rounded
   * completion percentage plus the bonus, capped at 100.
   */
  lemma ConsistencyScoreIs(h: Habit, today: Day)
    requires h.completedDates != []
    ensures ConsistencyScore(h, today)
         == ConsistencyOf(|h.completedDates|, SpanDays(h, today), CurrentStreak(h.completedDates, today))
  {
    var span := SpanDays(h, today);
    var streak := CurrentStreak(h.completedDates, today);
    var rate := |h.completedDates| as real / span as real;
    var bonus := if 2 * streak <= 20 then 2 * streak else 20;
    assert MinReal(streak as real * 0.02, 0.2) * 100.0 == bonus as real;
    assert (rate + MinReal(streak as real * 0.02, 0.2)) * 100.0 == 100.0 * |h.completedDates| as real / span as real + bonus as real;
    RoundShift(100.0 * |h.completedDates| as real / span as real, bonus);
  }

  /** With the same completions count and creation time, a longer streak never lowers the score. */
  lemma ConsistencyMonotone(h1: Habit, h2: Habit, today: Day)
    requires |h1.completedDates| == |h2.completedDates| && h1.createdAt == h2.createdAt
    requires CurrentStreak(h1.completedDates, today) <= CurrentStreak(h2.completedDates, today)
    ensures ConsistencyScore(h1, today) <= ConsistencyScore(h2, today)
  {
    if h1.completedDates != [] {
      ConsistencyScoreIs(h1, today);
      ConsistencyScoreIs(h2, today);
    }
  }

  /** getStreakData. */
  method GetStreakData(h: Habit, today: Day) returns (data: StreakData)
    ensures data.currentStreak == CurrentStreak(h.completedDates, today)
    ensures data.longestStreak == LongestStreak(h.completedDates)
    ensures data.streakStartDate == StreakStartDate(h, today)
  {
    var current := CalculateCurrentStreak(h, today);
    var longest := CalculateLongestStreak(h);
    data := StreakData(current, longest, StreakStartDate(h, today));
  }
}
