/**
 * components/mood/MoodChart.tsx: the bar heights, `chartData` (one bar per
 * day of the window, showing the last mood logged that day) and, in
 * `MoodStats`, the mood distribution with its dominant mood. The clock is
 * the `today` parameter.
 */
module MoodChart {
  import opened Wrappers
  import opened Seqs
  import opened Sorting
  import opened Arith
  import opened DateUtils
  import opened MoodTypes
  import MoodStore

  /** MOOD_HEIGHTS: the bar height in percent of each mood. */
  function MoodHeight(m: Mood): (h: int)
    ensures h == 20 * Score(m)
    ensures 20 <= h <= 100
  {
    match m
    case Terrible => 20
    case Bad => 40
    case Neutral => 60
    case Good => 80
    case Excellent => 100
  }

  /** The height of a bar: the mood's height, or 8 for a day without a mood. */
  function BarHeight(mood: Option<Mood>): (h: int)
    ensures mood.None? <==> h == 8
  {
    if mood.Some? then MoodHeight(mood.value) else 8
  }

  /** The heights rise strictly from terrible to excellent, all above the empty bar. */
  lemma HeightsIncrease()
    ensures forall i, j :: 0 <= i < j < |MOODS| ==> MoodHeight(MOODS[i]) < MoodHeight(MOODS[j])
    ensures forall m :: BarHeight(None) < BarHeight(Some(m))
  {
  }

  /** The last entry of the list dated `d`, or None when no entry is. */
  function LastOnDate(s: seq<MoodEntry>, d: Day): (r: Option<MoodEntry>)
    ensures r.None? <==> forall i :: 0 <= i < |s| ==> s[i].date != d
    ensures r.Some? ==> r.value in s && r.value.date == d
  {
    var dayMoods := Filter(s, MoodStore.OnDate(d));
    FilterEmpty(s, MoodStore.OnDate(d));
    if |dayMoods| > 0 then Some(dayMoods[|dayMoods| - 1]) else None
  }

  /** No entry dated `d` comes after the one LastOnDate picks. */
  lemma {:induction false} LastOnDateIsLast(s: seq<MoodEntry>, d: Day) returns (k: nat)
    requires LastOnDate(s, d).Some?
    ensures k < |s| && s[k] == LastOnDate(s, d).value
    ensures forall j :: k < j < |s| ==> s[j].date != d
  {
    LastOnDateStep(s, d);
    if s[|s| - 1].date == d {
      k := |s| - 1;
    } else {
      k := LastOnDateIsLast(s[..|s| - 1], d);
    }
  }

  /** The last entry decides when it is dated `d`; otherwise the earlier entries do. */
  lemma LastOnDateStep(s: seq<MoodEntry>, d: Day)
    requires s != []
    ensures LastOnDate(s, d)
         == if s[|s| - 1].date == d then Some(s[|s| - 1]) else LastOnDate(s[..|s| - 1], d)
  {
    var f := Filter(s[..|s| - 1], MoodStore.OnDate(d));
    if s[|s| - 1].date == d {
      assert Filter(s, MoodStore.OnDate(d)) == f + [s[|s| - 1]];
    } else {
      assert Filter(s, MoodStore.OnDate(d)) == f;
    }
  }

  datatype ChartEntry = ChartEntry(date: Day, mood: Option<Mood>, isToday: bool)

  function MoodOf(e: Option<MoodEntry>): Option<Mood>
  {
    if e.Some? then Some(e.value.mood) else None
  }

  /**
   * chartData: one entry per day of `getLastNDays(days)`, in order, with the
   * last mood of that day among the recent moods; only the final bar is today.
   */
  function ChartData(moodHistory: seq<MoodEntry>, days: int, today: Day): (r: seq<ChartEntry>)
    ensures |r| == |LastNDays(days, today)|
    ensures forall i :: 0 <= i < |r| ==> r[i].date == LastNDays(days, today)[i]
    ensures forall i :: 0 <= i < |r| ==> (r[i].isToday <==> i == |r| - 1)
  {
    var recentDates := LastNDays(days, today);
    var recentMoods := MoodStore.RecentMoods(moodHistory, days, today);
    seq(|recentDates|, i requires 0 <= i < |recentDates| =>
      var date := recentDates[i];
      ChartEntry(date, MoodOf(LastOnDate(recentMoods, date)), date == today))
  }

  /**
   * Each bar shows the last mood the whole history logged on its day: the
   * window filter keeps every entry of a day inside the window, in order.
   */
  lemma ChartShowsLastOfDay(moodHistory: seq<MoodEntry>, days: int, today: Day, i: nat)
    requires i < |ChartData(moodHistory, days, today)|
    ensures var e := ChartData(moodHistory, days, today)[i];
      e.mood == MoodOf(LastOnDate(moodHistory, e.date))
  {
    var recentDates := LastNDays(days, today);
    var date := recentDates[i];
    var p := MoodStore.DatedIn(recentDates);
    var q := MoodStore.OnDate(date);
    assert date in recentDates;
    FilterFilter(moodHistory, p, q, q);
  }

  /** moodDistribution: the `forEach` adding one to the mood of each recent entry. */
  method CountMoods(recentMoods: seq<MoodEntry>) returns (distribution: map<Mood, nat>)
    ensures distribution == MoodStore.Distribution(recentMoods)
  {
    distribution := map[Terrible := 0, Bad := 0, Neutral := 0, Good := 0, Excellent := 0];
    for i := 0 to |recentMoods|
      invariant distribution == MoodStore.Counted(recentMoods[..i])
    {
      var entry := recentMoods[i];
      assert recentMoods[..i + 1] == recentMoods[..i] + [entry];
      MoodStore.CountedStep(recentMoods[..i], entry);
      distribution := distribution[entry.mood := distribution[entry.mood] + 1];
    }
    assert recentMoods[..|recentMoods|] == recentMoods;
    MoodStore.CountedIsDistribution(recentMoods);
  }

  /** `Object.entries` of a five-key record: the (mood, count) pairs in key order. */
  function Entries(counts: map<Mood, nat>): (r: seq<(Mood, nat)>)
    requires forall m :: m in MOODS ==> m in counts
    ensures |r| == 5
    ensures forall i :: 0 <= i < 5 ==> r[i] == (MOODS[i], counts[MOODS[i]])
  {
    seq(5, i requires 0 <= i < 5 => (MOODS[i], counts[MOODS[i]]))
  }

  /** The key of the comparator `(a, b) => b[1] - a[1]`. */
  function NegCount(e: (Mood, nat)): int { -(e.1 as int) }

  /** dominantMood: the head of the entries sorted by count, highest first. */
  function DominantMood(counts: map<Mood, nat>): (r: (Mood, nat))
    requires forall m :: m in MOODS ==> m in counts
    ensures r.0 in MOODS && r.1 == counts[r.0]
    ensures forall m :: m in MOODS ==> counts[m] <= r.1
  {
    HeadIsMax(counts);
    Sort(Entries(counts), ByRank(NegCount))[0]
  }

  /** The head of the sorted entries is an entry with the highest count. */
  lemma HeadIsMax(counts: map<Mood, nat>)
    requires forall m :: m in MOODS ==> m in counts
    ensures var e := Sort(Entries(counts), ByRank(NegCount))[0];
      e.0 in MOODS && e.1 == counts[e.0] && forall m :: m in MOODS ==> counts[m] <= e.1
  {
    var s := Entries(counts);
    ByRankIsStrictWeakOrder(NegCount);
    var k := SortHead(s, ByRank(NegCount));
    forall j | 0 <= j < 5 ensures counts[MOODS[j]] <= counts[MOODS[k]] {
      assert !ByRank(NegCount)(s[j], s[k]);
      assert NegCount(s[j]) >= NegCount(s[k]);
      assert s[j].1 == counts[MOODS[j]] && s[k].1 == counts[MOODS[k]];
    }
    assert MOODS[0] == Terrible && MOODS[1] == Bad && MOODS[2] == Neutral;
    assert MOODS[3] == Good && MOODS[4] == Excellent;
  }

  /**
   * The dominant mood has the highest count, and ties go to the mood that
   * comes first from terrible to excellent (the sort is stable).
   */
  lemma DominantIsFirstMax(counts: map<Mood, nat>) returns (k: nat)
    requires forall m :: m in MOODS ==> m in counts
    ensures k < 5 && DominantMood(counts) == (MOODS[k], counts[MOODS[k]])
    ensures forall j :: 0 <= j < 5 ==> counts[MOODS[j]] <= counts[MOODS[k]]
    ensures forall j :: 0 <= j < k ==> counts[MOODS[j]] < counts[MOODS[k]]
  {
    var s := Entries(counts);
    ByRankIsStrictWeakOrder(NegCount);
    k := SortHead(s, ByRank(NegCount));
    forall j | 0 <= j < 5 ensures counts[MOODS[j]] <= counts[MOODS[k]] {
      assert !ByRank(NegCount)(s[j], s[k]);
      assert NegCount(s[j]) >= NegCount(s[k]);
      assert s[j].1 == counts[MOODS[j]] && s[k].1 == counts[MOODS[k]];
    }
    forall j | 0 <= j < k ensures counts[MOODS[j]] < counts[MOODS[k]] {
      assert ByRank(NegCount)(s[k], s[j]);
      assert NegCount(s[k]) < NegCount(s[j]);
      assert s[j].1 == counts[MOODS[j]] && s[k].1 == counts[MOODS[k]];
    }
  }

  /**
   * The percentage beside the dominant mood: shown only when its count is
   * positive, as `Math.round(count / total * 100)`. It shows exactly when
   * there are recent moods, and then lies between 20 and 100: the largest of
   * five counts is at least a fifth of them.
   */
  function DominantPercent(recentMoods: seq<MoodEntry>): (r: Option<int>)
    ensures r.Some? <==> recentMoods != []
    ensures r.Some? ==> 20 <= r.value <= 100
  {
    var counts := MoodStore.Distribution(recentMoods);
    var dominant := DominantMood(counts);
    assert 5 * dominant.1 >= |recentMoods| by {
      assert counts[Terrible] <= dominant.1 && counts[Bad] <= dominant.1 && counts[Neutral] <= dominant.1;
      assert counts[Good] <= dominant.1 && counts[Excellent] <= dominant.1;
    }
    if dominant.1 > 0 && |recentMoods| > 0 then
      assert dominant.1 <= |recentMoods|;
      ShareBounds(dominant.1, |recentMoods|);
      Some(Round(dominant.1 as real / |recentMoods| as real * 100.0))
    else None
  }

  /** A share of at least a fifth rounds to a percentage between 20 and 100. */
  lemma ShareBounds(c: int, n: int)
    requires 0 < c <= n && 5 * c >= n
    ensures 20 <= Round(c as real / n as real * 100.0) <= 100
  {
    MeanBounds(100 * c, n, 20, 100);
    assert c as real / n as real * 100.0 == (100 * c) as real / n as real;
  }
}
