/**
 * app/insights/page.tsx: the statistics the page computes from the two
 * stores: total completions, the best longest streak and the most
 * consistent habit among the active habits, and the mood distribution of
 * the whole history with its dominant mood.
 */
module InsightsPage {
  import opened Wrappers
  import opened Seqs
  import opened HabitTypes
  import opened MoodTypes
  import opened StreakCalculator
  import MoodStore
  import MoodChart
  import InsightsPanel

  /** `totalCompletions`: the completions of every habit, active or not. */
  function TotalCompletions(habits: seq<Habit>): (n: int)
    ensures n >= 0
    ensures n == 0 <==> forall i :: 0 <= i < |habits| ==> habits[i].completedDates == []
  {
    InsightsPanel.TotalCompletions(habits)
  }

  /** Inactive habits count too: the page's total is at least the active habits' total. */
  lemma TotalCountsInactive(habits: seq<Habit>)
    ensures TotalCompletions(ActiveHabits(habits)) <= TotalCompletions(habits)
  {
    SumOfFilter(habits, IsActive, InsightsPanel.CompletionCount);
  }

  function IsInactive(h: Habit): bool { !h.active }

  /** The page's total is the active habits' total plus the inactive habits' total. */
  lemma TotalSplitsByActive(habits: seq<Habit>)
    ensures TotalCompletions(habits)
         == TotalCompletions(ActiveHabits(habits)) + TotalCompletions(Filter(habits, IsInactive))
  {
    SumSplit(habits, IsActive, IsInactive, InsightsPanel.CompletionCount);
  }

  /** A sum is the sum over the elements that satisfy `p` plus the sum over the others. */
  lemma {:induction false} SumSplit<T>(s: seq<T>, p: T -> bool, q: T -> bool, f: T -> int)
    requires forall x :: q(x) == !p(x)
    ensures Sum(s, f) == Sum(Filter(s, p), f) + Sum(Filter(s, q), f)
  {
    if s != [] {
      var s' := s[..|s| - 1];
      var x := s[|s| - 1];
      SumSplit(s', p, q, f);
      assert s[..|s| - 1] == s';
      if p(x) {
        var t := Filter(s', p) + [x];
        assert Filter(s, p) == t && Filter(s, q) == Filter(s', q);
        assert t[..|t| - 1] == Filter(s', p);
      } else {
        var t := Filter(s', q) + [x];
        assert Filter(s, q) == t && Filter(s, p) == Filter(s', p);
        assert t[..|t| - 1] == Filter(s', q);
      }
    }
  }

  /** Dropping non-negative terms never raises a sum. */
  lemma {:induction false} SumOfFilter<T>(s: seq<T>, p: T -> bool, f: T -> int)
    requires forall i :: 0 <= i < |s| ==> f(s[i]) >= 0
    ensures Sum(Filter(s, p), f) <= Sum(s, f)
  {
    if s != [] {
      var s' := s[..|s| - 1];
      var x := s[|s| - 1];
      SumOfFilter(s', p, f);
      if p(x) {
        var t := Filter(s', p) + [x];
        assert t[..|t| - 1] == Filter(s', p);
      } else {
        assert Filter(s, p) == Filter(s', p);
      }
    }
  }

  /** `reduce((max, h) => score(h) > max ? score(h) : max, 0)`. */
  function MaxScore(active: seq<Habit>, score: Habit -> nat): (r: nat)
    ensures forall h :: h in active ==> score(h) <= r
    ensures r == 0 || exists h :: h in active && r == score(h)
  {
    if active == [] then 0
    else
      var prefix, last := active[..|active| - 1], active[|active| - 1];
      var max := MaxScore(prefix, score);
      assert active == prefix + [last];
      if score(last) > max then score(last) else max
  }

  function LongestOf(h: Habit): nat { LongestStreak(h.completedDates) }

  /** `bestStreak`: the reduce above over the longest streaks. */
  function BestStreak(active: seq<Habit>): (r: nat)
    ensures forall h :: h in active ==> LongestStreak(h.completedDates) <= r
    ensures r == 0 || exists h :: h in active && r == LongestStreak(h.completedDates)
  {
    var r := MaxScore(active, LongestOf);
    assert forall h :: h in active ==> LongestOf(h) <= r;
    r
  }

  /** With no active habit the best streak is 0; otherwise it is some active habit's longest streak. */
  lemma BestStreakAttained(active: seq<Habit>)
    ensures active == [] ==> BestStreak(active) == 0
    ensures active != [] ==>
      exists i :: 0 <= i < |active| && BestStreak(active) == LongestStreak(active[i].completedDates)
  {
    if active != [] {
      if BestStreak(active) == 0 {
        assert active[0] in active;
      } else {
        var h :| h in active && BestStreak(active) == LongestStreak(h.completedDates);
        var i :| 0 <= i < |active| && active[i] == h;
      }
    }
  }

  /**
   * `bestHabit`: `reduce` keeping the habit unless a later one scores
   * strictly higher, starting from null.
   */
  function BestBy(active: seq<Habit>, score: Habit -> int): (r: Option<Habit>)
    ensures r.None? <==> active == []
    ensures r.Some? ==> r.value in active
    ensures r.Some? ==> forall i :: 0 <= i < |active| ==> score(active[i]) <= score(r.value)
  {
    if active == [] then None
    else
      var prefix := active[..|active| - 1];
      var best := BestBy(prefix, score);
      var h := active[|active| - 1];
      assert forall i :: 0 <= i < |prefix| ==> prefix[i] == active[i];
      if best.None? || score(best.value) < score(h) then Some(h) else best
  }

  /** Ties go to the earliest habit: every habit before the chosen one scores strictly lower. */
  lemma {:induction false} BestByIsEarliest(active: seq<Habit>, score: Habit -> int) returns (k: nat)
    requires active != []
    ensures k < |active| && BestBy(active, score) == Some(active[k])
    ensures forall j :: 0 <= j < k ==> score(active[j]) < score(active[k])
  {
    var prefix := active[..|active| - 1];
    var h := active[|active| - 1];
    var best := BestBy(prefix, score);
    if best.None? || score(best.value) < score(h) {
      k := |active| - 1;
      if best.Some? {
        forall j | 0 <= j < k ensures score(active[j]) < score(active[k]) {
          assert prefix[j] == active[j];
        }
      }
    } else {
      k := BestByIsEarliest(prefix, score);
      forall j | 0 <= j < k ensures score(active[j]) < score(active[k]) {
        assert prefix[j] == active[j];
      }
    }
  }

  function Consistency(today: int): Habit -> int
  {
    (h: Habit) => ConsistencyScore(h, today)
  }

  /** `bestHabit` of the page: the most consistent active habit, null when none is active. */
  function BestHabit(habits: seq<Habit>, today: int): (r: Option<Habit>)
    ensures r.None? <==> ActiveHabits(habits) == []
    ensures r.Some? ==> r.value in ActiveHabits(habits)
    ensures r.Some? ==> forall i :: 0 <= i < |ActiveHabits(habits)| ==>
      ConsistencyScore(ActiveHabits(habits)[i], today) <= ConsistencyScore(r.value, today)
  {
    BestBy(ActiveHabits(habits), Consistency(today))
  }

  /**
   * `dominantMood` of the page: the first mood with the largest count over
   * the whole history. The entry carries its mood's count, and the "Most"
   * label (shown when that count is positive) appears exactly when a mood
   * was logged.
   */
  function DominantMood(moodHistory: seq<MoodEntry>): (r: (Mood, nat))
    ensures r.0 in MOODS && r.1 == CountMood(moodHistory, r.0)
    ensures forall m :: m in MOODS ==> CountMood(moodHistory, m) <= r.1
    ensures r.1 > 0 <==> moodHistory != []
  {
    var counts := MoodStore.Distribution(moodHistory);
    var dominant := MoodChart.DominantMood(counts);
    assert 5 * dominant.1 >= |moodHistory| by {
      assert counts[Terrible] <= dominant.1 && counts[Bad] <= dominant.1 && counts[Neutral] <= dominant.1;
      assert counts[Good] <= dominant.1 && counts[Excellent] <= dominant.1;
    }
    dominant
  }
}
