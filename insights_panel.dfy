/**
 * components/ai/InsightsPanel.tsx: the `insights` memo and the conditions
 * under which the "Needs Attention" card and the personalised tips appear.
 * The clock is the `today` parameter; the window start of the per-habit
 * count (now minus `days` days) is the day `today - days`. The in-place
 * `habitScores.sort` is the stable sort of the Sorting module on a value.
 */
module InsightsPanel {
  import opened Wrappers
  import opened Seqs
  import opened Sorting
  import opened DateUtils
  import opened HabitTypes
  import opened MoodTypes
  import opened StreakCalculator
  import MoodStore
  import Insights

  /** One entry of `habitScores`. */
  datatype HabitScore = HabitScore(habit: Habit, consistency: int, currentStreak: nat)

  /**
   * The `map` body for one habit. Its `currentStreak` is not a streak: it
   * counts the completions dated on or after the window start.
   */
  function ScoreHabit(h: Habit, days: int, today: Day): (s: HabitScore)
    ensures s.habit == h
    ensures s.consistency == ConsistencyScore(h, today) && 0 <= s.consistency <= 100
    ensures s.currentStreak <= |h.completedDates|
    ensures forall i :: 0 <= i < |h.completedDates| && h.completedDates[i] >= today - days ==>
      s.currentStreak > 0
    ensures s.currentStreak == |set i | 0 <= i < |h.completedDates| && h.completedDates[i] >= today - days|
  {
    var onOrAfter := Insights.DayOnOrAfter(today - days);
    FilterEmpty(h.completedDates, onOrAfter);
    CountSince(h.completedDates, today - days);
    HabitScore(h, ConsistencyScore(h, today), |Filter(h.completedDates, onOrAfter)|)
  }

  /** The completions dated on or after `pastDay`, counted by position. */
  lemma CountSince(dates: seq<Day>, pastDay: Day)
    ensures |Filter(dates, Insights.DayOnOrAfter(pastDay))| == |set i | 0 <= i < |dates| && dates[i] >= pastDay|
  {
    FilterCount(dates, Insights.DayOnOrAfter(pastDay), set i | 0 <= i < |dates| && dates[i] >= pastDay);
  }

  function ScoresOf(active: seq<Habit>, days: int, today: Day): (r: seq<HabitScore>)
    ensures |r| == |active|
    ensures forall i :: 0 <= i < |active| ==> r[i] == ScoreHabit(active[i], days, today)
  {
    seq(|active|, i requires 0 <= i < |active| => ScoreHabit(active[i], days, today))
  }

  /** The key of the comparator `(a, b) => b.consistency - a.consistency`. */
  function NegConsistency(s: HabitScore): int { -s.consistency }

  /** `reduce((sum, h) => sum + h.completedDates.length, 0)`. */
  function CompletionCount(h: Habit): int { |h.completedDates| }

  /** `habitScores.sort((a, b) => b.consistency - a.consistency)`: highest consistency first. */
  function ByConsistency(scores: seq<HabitScore>): (r: seq<HabitScore>)
    ensures multiset(r) == multiset(scores)
    ensures forall i, j :: 0 <= i < j < |r| ==> r[i].consistency >= r[j].consistency
  {
    SortPermutes(scores, ByRank(NegConsistency));
    SortByRankOrdered(scores, NegConsistency);
    Sort(scores, ByRank(NegConsistency))
  }

  /** `totalStreak`: the completions of the given habits added up. */
  function TotalCompletions(active: seq<Habit>): (n: int)
    ensures n >= 0
    ensures n == 0 <==> forall i :: 0 <= i < |active| ==> active[i].completedDates == []
  {
    SumZero(active, CompletionCount);
    Sum(active, CompletionCount)
  }

  /** One habit contributes its completion count. */
  lemma TotalCompletionsOne(h: Habit)
    ensures TotalCompletions([h]) == |h.completedDates|
  {
    assert [h][..0] == [];
    assert Sum([h], CompletionCount) == Sum([], CompletionCount) + CompletionCount(h);
  }

  /** The total over a concatenation is the sum of the two totals. */
  lemma TotalCompletionsAppend(a: seq<Habit>, b: seq<Habit>)
    ensures TotalCompletions(a + b) == TotalCompletions(a) + TotalCompletions(b)
  {
    SumAppend(a, b, CompletionCount);
  }

  datatype PanelInsights = PanelInsights(
    completionRate: real,
    avgMood: real,
    moodTrend: MoodStore.Trend,
    habitScores: seq<HabitScore>,
    totalHabits: nat,
    totalStreak: int)

  /**
   * The memo: today's completion rate (the formula of the insights route), the
   * mood average over `days` days and the trend over at most 14, the scores
   * sorted by consistency, highest first, and the completions of all active
   * habits added up.
   */
  function ComputeInsights(habits: seq<Habit>, moodHistory: seq<MoodEntry>, days: int, today: Day)
    : (r: PanelInsights)
    ensures r.completionRate == Insights.CompletionRate(habits, today)
    ensures r.avgMood == MoodStore.AverageMoodScore(MoodStore.RecentMoods(moodHistory, days, today))
    ensures r.moodTrend == MoodStore.MoodTrend(MoodStore.RecentMoods(moodHistory, if days <= 14 then days else 14, today))
    ensures r.totalHabits == |ActiveHabits(habits)| == |r.habitScores|
    ensures r.habitScores == ByConsistency(ScoresOf(ActiveHabits(habits), days, today))
    ensures r.totalStreak == TotalCompletions(ActiveHabits(habits))
  {
    var activeHabits := ActiveHabits(habits);
    var avgMood := MoodStore.AverageMoodScore(MoodStore.RecentMoods(moodHistory, days, today));
    var moodTrend := MoodStore.MoodTrend(MoodStore.RecentMoods(moodHistory, if days <= 14 then days else 14, today));
    var completionRate := Insights.CompletionRate(habits, today);
    var habitScores := ByConsistency(ScoresOf(activeHabits, days, today));
    PanelInsights(completionRate, avgMood, moodTrend, habitScores, |activeHabits|,
                  TotalCompletions(activeHabits))
  }

  /** `habitScores[0]`: undefined with no active habit. */
  function BestHabit(r: PanelInsights): (b: Option<HabitScore>)
    ensures b.None? <==> r.habitScores == []
    ensures b.Some? ==> b.value == r.habitScores[0]
  {
    At(r.habitScores, 0)
  }

  /** `habitScores[habitScores.length - 1]`: undefined with no active habit. */
  function WorstHabit(r: PanelInsights): (w: Option<HabitScore>)
    ensures w.None? <==> r.habitScores == []
    ensures w.Some? ==> w.value == r.habitScores[|r.habitScores| - 1]
  {
    At(r.habitScores, |r.habitScores| - 1)
  }

  /**
   * The best habit has the highest consistency score among the active habits
   * and the worst the lowest; both are undefined exactly when no habit is active.
   */
  lemma BestAndWorst(habits: seq<Habit>, moodHistory: seq<MoodEntry>, days: int, today: Day)
    ensures var r := ComputeInsights(habits, moodHistory, days, today);
      BestHabit(r).None? <==> ActiveHabits(habits) == []
    ensures var r := ComputeInsights(habits, moodHistory, days, today);
      WorstHabit(r).None? <==> ActiveHabits(habits) == []
    ensures var r := ComputeInsights(habits, moodHistory, days, today);
      BestHabit(r).Some? ==> BestHabit(r).value.habit in ActiveHabits(habits)
    ensures var r := ComputeInsights(habits, moodHistory, days, today);
      WorstHabit(r).Some? ==> WorstHabit(r).value.habit in ActiveHabits(habits)
    ensures var r := ComputeInsights(habits, moodHistory, days, today);
      forall h :: h in ActiveHabits(habits) ==>
        BestHabit(r).value.consistency >= ConsistencyScore(h, today) >= WorstHabit(r).value.consistency
  {
    ConsistencyExtremes(ActiveHabits(habits), days, today);
  }

  /** The ends of the sorted scores belong to habits of the list, and bound every habit's score. */
  lemma ConsistencyExtremes(active: seq<Habit>, days: int, today: Day)
    ensures var r := ByConsistency(ScoresOf(active, days, today));
      |r| > 0 ==> r[0].habit in active && r[|r| - 1].habit in active
    ensures var r := ByConsistency(ScoresOf(active, days, today));
      forall h :: h in active ==>
        r[0].consistency >= ConsistencyScore(h, today) >= r[|r| - 1].consistency
  {
    var scores := ScoresOf(active, days, today);
    var r := ByConsistency(scores);
    PermutedEnds(r, scores);
    forall h | h in active
      ensures r[0].consistency >= ConsistencyScore(h, today) >= r[|r| - 1].consistency
    {
      var k :| 0 <= k < |active| && active[k] == h;
      assert scores[k].consistency == ConsistencyScore(h, today);
    }
  }

  /** A descending rearrangement starts with a maximum and ends with a minimum of the original. */
  lemma PermutedEnds(r: seq<HabitScore>, scores: seq<HabitScore>)
    requires multiset(r) == multiset(scores)
    requires forall i, j :: 0 <= i < j < |r| ==> r[i].consistency >= r[j].consistency
    ensures |r| > 0 ==> r[0] in scores && r[|r| - 1] in scores
    ensures forall k :: 0 <= k < |scores| ==>
      r[0].consistency >= scores[k].consistency >= r[|r| - 1].consistency
  {
    forall k | 0 <= k < |scores|
      ensures r[0].consistency >= scores[k].consistency >= r[|r| - 1].consistency
    {
      assert scores[k] in multiset(r);
      var j :| 0 <= j < |r| && r[j] == scores[k];
    }
    if |r| > 0 {
      assert r[0] in multiset(scores);
      assert r[|r| - 1] in multiset(scores);
    }
  }

  /**
   * The "Needs Attention" card shows when the worst entry is a different
   * object from the best one. Every entry is a fresh object, so the entries
   * are the same object exactly when they sit at the same position.
   */
  predicate ShowsNeedsAttention(r: PanelInsights): (b: bool)
    ensures b <==> |r.habitScores| >= 2
  {
    var n := |r.habitScores|;
    n > 0 && n - 1 != 0
  }

  /** The card appears exactly when at least two habits are active: never for a single habit. */
  lemma NeedsAttentionNeedsTwo(habits: seq<Habit>, moodHistory: seq<MoodEntry>, days: int, today: Day)
    ensures ShowsNeedsAttention(ComputeInsights(habits, moodHistory, days, today)) <==>
      |ActiveHabits(habits)| >= 2
  {
  }

  /**
   * The total counts every completion of every active habit: it is no
   * smaller than any one active habit's count.
   */
  lemma TotalStreakCounts(habits: seq<Habit>, moodHistory: seq<MoodEntry>, days: int, today: Day)
    ensures var r := ComputeInsights(habits, moodHistory, days, today);
      forall h :: h in ActiveHabits(habits) ==> |h.completedDates| <= r.totalStreak
  {
    var active := ActiveHabits(habits);
    forall h | h in active
      ensures |h.completedDates| <= Sum(active, CompletionCount)
    {
      var k :| 0 <= k < |active| && active[k] == h;
      SumAtLeastTerm(active, CompletionCount, k);
    }
  }

  /** A sum of non-negative terms is at least each term. */
  lemma {:induction false} SumAtLeastTerm<T>(s: seq<T>, f: T -> int, k: nat)
    requires k < |s|
    requires forall i :: 0 <= i < |s| ==> f(s[i]) >= 0
    ensures f(s[k]) <= Sum(s, f)
  {
    var s' := s[..|s| - 1];
    SumZero(s', f);
    if k < |s| - 1 {
      SumAtLeastTerm(s', f, k);
    }
  }

  datatype Tip = StartSmall | MoodBoost | ConsolidateMany | CelebratePerfect

  function TipText(t: Tip): string
  {
    match t
    case StartSmall => "Start with just one habit today. Small wins build momentum!"
    case MoodBoost => "Your mood has been trending down. Consider adding a quick mood-boosting habit like gratitude journaling."
    case ConsolidateMany => "You're doing great with many habits! Consider consolidating some to maintain focus."
    case CelebratePerfect => "Perfect day! Celebrate your achievement - you earned it!"
  }

  /** The tips shown, in the order of the list. */
  function Tips(r: PanelInsights): (tips: seq<Tip>)
    ensures StartSmall in tips <==> r.completionRate < 0.5
    ensures MoodBoost in tips <==> r.moodTrend == MoodStore.Declining && r.avgMood < 3.0
    ensures ConsolidateMany in tips <==> r.totalHabits > 5 && r.completionRate > 0.8
    ensures CelebratePerfect in tips <==> r.completionRate == 1.0 && r.totalHabits > 0
  {
    (if r.completionRate < 0.5 then [StartSmall] else [])
    + (if r.moodTrend == MoodStore.Declining && r.avgMood < 3.0 then [MoodBoost] else [])
    + (if r.totalHabits > 5 && r.completionRate > 0.8 then [ConsolidateMany] else [])
    + (if r.completionRate == 1.0 && r.totalHabits > 0 then [CelebratePerfect] else [])
  }

  /**
   * The "start small" tip never shows beside the consolidation or the
   * celebration tip, and it is the tip shown when no habit is active. Stated
   * for every record carrying the route's completion rate and the number of
   * active habits, as ComputeInsights' result does.
   */
  lemma TipsConsistent(r: PanelInsights, habits: seq<Habit>, today: Day)
    requires r.completionRate == Insights.CompletionRate(habits, today)
    requires r.totalHabits == |ActiveHabits(habits)|
    ensures StartSmall in Tips(r) ==> ConsolidateMany !in Tips(r) && CelebratePerfect !in Tips(r)
    ensures ActiveHabits(habits) == [] ==>
      StartSmall in Tips(r) && ConsolidateMany !in Tips(r) && CelebratePerfect !in Tips(r)
    ensures CelebratePerfect in Tips(r) <==>
      && ActiveHabits(habits) != []
      && forall h :: h in ActiveHabits(habits) ==> today in h.completedDates
  {
  }
}
