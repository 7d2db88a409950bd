/**
 * app/api/predict/route.ts, `generateStreakPredictions` and its helpers: a
 * second streak engine that walks back from the newest completion (today or
 * yesterday), a first-match rule chain deciding the risk level, a clamped
 * continuation probability, and a stable sort by severity. The request
 * handling around it is not part of this model; `today` is a parameter and
 * `yesterday` (now minus 24 hours) is `today - 1`.
 */
module Predict {
  import opened Seqs
  import opened Sorting
  import opened Arith
  import opened DateUtils
  import opened HabitTypes
  import opened StreakCalculator
  import opened Text

  // ---- the streak walk ----

  /**
   * The route's current streak: the number of consecutive completed days
   * ending at the newest completion when that is today or yesterday, else 0.
   */
  function PredictedStreak(dates: seq<Day>, today: Day): (r: nat)
    ensures r > 0 <==> |dates| > 0 && (Max(dates) == today || Max(dates) == today - 1)
    ensures r > 0 ==> forall e :: Max(dates) - r < e <= Max(dates) ==> e in dates
    ensures r > 0 ==> Max(dates) - r !in dates
  {
    if |dates| == 0 then 0
    else if Max(dates) == today then RunBack(dates, today)
    else if Max(dates) == today - 1 then RunBack(dates, today - 1)
    else 0
  }

  /** One of the route's two `while` loops: counts `start` and the completed days before it. */
  method WalkBack(sortedDates: seq<Day>, ghost dates: seq<Day>, start: Day) returns (currentStreak: nat)
    requires forall x :: x in sortedDates <==> x in dates
    requires start in dates
    ensures currentStreak == RunBack(dates, start)
  {
    currentStreak := 1;
    var checkDate := PrevDay(start);
    var dateIndex := IndexOf(sortedDates, checkDate);
    while dateIndex != -1
      invariant dateIndex == IndexOf(sortedDates, checkDate)
      invariant currentStreak + RunBack(dates, checkDate) == RunBack(dates, start)
      decreases RunBack(dates, checkDate)
    {
      currentStreak := currentStreak + 1;
      checkDate := PrevDay(checkDate);
      dateIndex := IndexOf(sortedDates, checkDate);
    }
  }

  /** The streak computation of the route, on the newest-first list. */
  method ComputeStreak(completedDates: seq<Day>, today: Day) returns (currentStreak: nat)
    ensures currentStreak == PredictedStreak(completedDates, today)
  {
    currentStreak := 0;
    var sortedDates := NewestFirst(completedDates);
    assert forall x :: x in sortedDates <==> x in completedDates by {
      forall x ensures x in sortedDates <==> x in completedDates {
        assert x in sortedDates <==> x in multiset(sortedDates);
      }
    }
    var yesterday := today - 1;
    if |sortedDates| > 0 {
      if sortedDates[0] == today {
        currentStreak := WalkBack(sortedDates, completedDates, today);
      } else if sortedDates[0] == yesterday {
        currentStreak := WalkBack(sortedDates, completedDates, yesterday);
      }
    }
  }

  /**
   * The two engines disagree. With the newest completion today the calculator
   * counts today twice; with the newest completion yesterday it gives 0 where
   * the route counts the run ending yesterday.
   */
  lemma EnginesCompared(dates: seq<Day>, today: Day)
    ensures |dates| > 0 && Max(dates) == today ==>
      CurrentStreak(dates, today) == PredictedStreak(dates, today) + 1
    ensures |dates| > 0 && Max(dates) == today - 1 ==>
      CurrentStreak(dates, today) == 0 < PredictedStreak(dates, today)
  {
  }

  /** Without a repeated day, sorting gives strictly increasing days. */
  lemma DistinctSortedIncreasing(s: seq<Day>)
    requires forall i, j :: 0 <= i < j < |s| ==> s[i] <= s[j]
    requires forall x :: multiset(s)[x] <= 1
    ensures forall i, j :: 0 <= i < j < |s| ==> s[i] < s[j]
  {
    forall i, j | 0 <= i < j < |s|
      ensures s[i] < s[j]
    {
      assert s == s[..j] + s[j..];
      assert multiset(s)[s[j]] == multiset(s[..j])[s[j]] + multiset(s[j..])[s[j]];
      assert s[j..][0] == s[j];
      assert multiset(s[j..])[s[j]] >= 1;
      assert s[..j][i] == s[i];
    }
  }

  /** In a strictly increasing list, the run ending at `j` is at least the run of days ending at `s[j]`. */
  lemma {:induction false} RunAtLeast(dates: seq<Day>, s: seq<Day>, j: nat)
    requires forall x :: x in s <==> x in dates
    requires forall a, b :: 0 <= a < b < |s| ==> s[a] < s[b]
    requires j < |s|
    ensures RunEndingAt(s, j) >= RunBack(dates, s[j])
  {
    if s[j] - 1 in dates {
      var m :| 0 <= m < |s| && s[m] == s[j] - 1;
      assert m < j;
      assert s[m] <= s[j - 1];
      assert s[j] - s[j - 1] == 1;
      RunAtLeast(dates, s, j - 1);
    }
  }

  /**
   * The route's streak never exceeds the longest streak when no day is
   * recorded twice (toggleCompletion never records a day twice).
   */
  lemma {:induction false} PredictedWithinLongest(dates: seq<Day>, today: Day)
    requires forall x :: multiset(dates)[x] <= 1
    ensures PredictedStreak(dates, today) <= LongestStreak(dates)
  {
    if PredictedStreak(dates, today) > 0 {
      var d := Max(dates);
      var s := SortedDays(dates);
      assert forall x :: x in s <==> x in dates by {
        forall x ensures x in s <==> x in dates {
          assert x in s <==> x in multiset(s);
        }
      }
      DistinctSortedIncreasing(s);
      var j :| 0 <= j < |s| && s[j] == d;
      RunAtLeast(dates, s, j);
    }
  }

  // ---- the rule chain ----

  /** The outcome of the rules for one habit; `confidence` is the fraction before rounding. */
  datatype Assessment = Assessment(riskLevel: RiskLevel, confidence: real,
                                   factors: seq<string>, suggestions: seq<string>)

  function StreakAtRiskText(n: nat): string { "You have a " + NatToString(n) + "-day streak at risk" }
  function MilestoneText(n: nat): string { "You have a " + NatToString(n) + "-day milestone streak" }
  function NeedsAttentionText(n: nat): string { "Your " + NatToString(n) + "-day streak needs attention" }
  function GrowingText(n: nat): string { "Your " + NatToString(n) + "-day streak is growing" }

  const SAVE_STREAK := "Complete this habit today to save your streak!"
  const PROTECT_IT := "You've built something special - protect it!"
  const BACK_ON_TRACK := "Get back on track today"
  const KEEP_MOMENTUM := "Keep the momentum going!"
  const COMPLETED_TODAY := "Completed today!"
  const ON_FIRE := "You're on fire!"

  /** The conditions of the route's five rules, in order. */
  predicate AtRisk(streak: nat, completedToday: bool, completedYesterday: bool)
  {
    streak >= 14 && !completedToday && completedYesterday
  }

  predicate Milestone(streak: nat, completedToday: bool) { streak >= 30 && !completedToday }

  predicate NeedsAttention(streak: nat, completedToday: bool, completedYesterday: bool)
  {
    streak >= 7 && !completedToday && completedYesterday
  }

  predicate Growing(streak: nat, completedToday: bool) { streak >= 5 && !completedToday }

  /**
   * The rules in the route's `if ... else if` order: the first that holds
   * decides the level, the confidence, the factor and the suggestion; with
   * no rule the habit stays low at 0.9 with nothing to say.
   */
  function RuleChain(streak: nat, completedToday: bool, completedYesterday: bool): (a: Assessment)
    ensures AtRisk(streak, completedToday, completedYesterday) ==>
      a == Assessment(High, 0.95, [StreakAtRiskText(streak)], [SAVE_STREAK])
    ensures !AtRisk(streak, completedToday, completedYesterday) && Milestone(streak, completedToday) ==>
      a == Assessment(High, 0.9, [MilestoneText(streak)], [PROTECT_IT])
    ensures (!AtRisk(streak, completedToday, completedYesterday) && !Milestone(streak, completedToday)
             && NeedsAttention(streak, completedToday, completedYesterday)) ==>
      a == Assessment(Medium, 0.85, [NeedsAttentionText(streak)], [BACK_ON_TRACK])
    ensures (!AtRisk(streak, completedToday, completedYesterday) && !Milestone(streak, completedToday)
             && !NeedsAttention(streak, completedToday, completedYesterday) && Growing(streak, completedToday)) ==>
      a == Assessment(Medium, 0.8, [GrowingText(streak)], [KEEP_MOMENTUM])
    ensures completedToday ==> a == Assessment(Low, 0.9, [COMPLETED_TODAY], [ON_FIRE])
    ensures (!AtRisk(streak, completedToday, completedYesterday) && !Milestone(streak, completedToday)
             && !NeedsAttention(streak, completedToday, completedYesterday) && !Growing(streak, completedToday)
             && !completedToday) ==> a == Assessment(Low, 0.9, [], [])
    ensures a.riskLevel == High <==>
      AtRisk(streak, completedToday, completedYesterday) || Milestone(streak, completedToday)
    ensures a.riskLevel == Medium <==>
      !AtRisk(streak, completedToday, completedYesterday) && !Milestone(streak, completedToday)
      && (NeedsAttention(streak, completedToday, completedYesterday) || Growing(streak, completedToday))
  {
    if AtRisk(streak, completedToday, completedYesterday) then
      Assessment(High, 0.95, [StreakAtRiskText(streak)], [SAVE_STREAK])
    else if Milestone(streak, completedToday) then
      Assessment(High, 0.9, [MilestoneText(streak)], [PROTECT_IT])
    else if NeedsAttention(streak, completedToday, completedYesterday) then
      Assessment(Medium, 0.85, [NeedsAttentionText(streak)], [BACK_ON_TRACK])
    else if Growing(streak, completedToday) then
      Assessment(Medium, 0.8, [GrowingText(streak)], [KEEP_MOMENTUM])
    else if completedToday then
      Assessment(Low, 0.9, [COMPLETED_TODAY], [ON_FIRE])
    else
      Assessment(Low, 0.9, [], [])
  }

  /** The route's statements: starts low at 0.9 with no factor, and the first branch that holds overwrites them. */
  method AssessRisk(streak: nat, completedToday: bool, completedYesterday: bool) returns (a: Assessment)
    ensures a == RuleChain(streak, completedToday, completedYesterday)
  {
    var riskLevel := Low;
    var confidence := 0.9;
    var factors: seq<string> := [];
    var suggestions: seq<string> := [];
    if streak >= 14 && !completedToday && completedYesterday {
      riskLevel := High;
      confidence := 0.95;
      factors := factors + [StreakAtRiskText(streak)];
      suggestions := suggestions + [SAVE_STREAK];
    } else if streak >= 30 && !completedToday {
      riskLevel := High;
      confidence := 0.9;
      factors := factors + [MilestoneText(streak)];
      suggestions := suggestions + [PROTECT_IT];
    } else if streak >= 7 && !completedToday && completedYesterday {
      riskLevel := Medium;
      confidence := 0.85;
      factors := factors + [NeedsAttentionText(streak)];
      suggestions := suggestions + [BACK_ON_TRACK];
    } else if streak >= 5 && !completedToday {
      riskLevel := Medium;
      confidence := 0.8;
      factors := factors + [GrowingText(streak)];
      suggestions := suggestions + [KEEP_MOMENTUM];
    } else if completedToday {
      riskLevel := Low;
      factors := factors + [COMPLETED_TODAY];
      suggestions := suggestions + [ON_FIRE];
    }
    a := Assessment(riskLevel, confidence, factors, suggestions);
  }

  /** With the route's own streak, a positive streak not extended today was extended yesterday. */
  lemma StreakImpliesYesterday(dates: seq<Day>, today: Day)
    ensures PredictedStreak(dates, today) > 0 && today !in dates ==> today - 1 in dates
  {
  }

  /**
   * With the route's streak the milestone rule never decides: whenever it
   * holds, the at-risk rule before it holds too.
   */
  lemma MilestoneUnreachable(dates: seq<Day>, today: Day)
    ensures var streak := PredictedStreak(dates, today);
      Milestone(streak, today in dates) ==> AtRisk(streak, today in dates, today - 1 in dates)
  {
    StreakImpliesYesterday(dates, today);
  }

  /** With the route's streak the "growing" rule decides only for streaks of 5 and 6. */
  lemma GrowingOnlyFiveOrSix(dates: seq<Day>, today: Day)
    ensures var streak := PredictedStreak(dates, today);
      Growing(streak, today in dates) && !NeedsAttention(streak, today in dates, today - 1 in dates)
      ==> 5 <= streak <= 6
  {
    StreakImpliesYesterday(dates, today);
  }

  /**
   * The risk level the route assigns, in terms of the streak alone: high from
   * 14 days, medium from 5 to 13 days, unless today is already completed.
   */
  lemma RouteRiskLevels(dates: seq<Day>, today: Day)
    ensures var a := RuleChain(PredictedStreak(dates, today), today in dates, today - 1 in dates);
      a.riskLevel == High <==> PredictedStreak(dates, today) >= 14 && today !in dates
    ensures var a := RuleChain(PredictedStreak(dates, today), today in dates, today - 1 in dates);
      a.riskLevel == Medium <==> 5 <= PredictedStreak(dates, today) < 14 && today !in dates
  {
    StreakImpliesYesterday(dates, today);
  }

  // ---- the last 30 days and the continuation probability ----

  /** getLast30Days: today and the 29 days before it, newest first. */
  method GetLast30Days(today: Day) returns (dates: seq<Day>)
    ensures |dates| == 30
    ensures forall i :: 0 <= i < 30 ==> dates[i] == today - i
    ensures forall d :: d in dates <==> today - 30 < d <= today
  {
    dates := [];
    for i := 0 to 30
      invariant |dates| == i
      invariant forall k :: 0 <= k < i ==> dates[k] == today - k
    {
      dates := dates + [today - i];
    }
    forall d | today - 30 < d <= today
      ensures d in dates
    {
      assert dates[today - d] == d;
    }
  }

  /** The days of `dates` inside the window (a repeated day counts each time). */
  function InWindow(window: seq<Day>): Day -> bool
  {
    (d: Day) => d in window
  }

  /**
   * `Math.min(0.95, Math.max(0.3, rate + bonuses))` as a percentage: the
   * 30-day rate plus 0.1 for a running streak and 0.1 for today, clamped.
   */
  function ContinuationProbability(completedInLast30: nat, streak: nat, completedToday: bool): (p: int)
    ensures 30 <= p <= 95
  {
    var historicalRate := completedInLast30 as real / 30.0;
    var raw := historicalRate + (if streak > 0 then 0.1 else 0.0) + (if completedToday then 0.1 else 0.0);
    var clamped := MinReal(0.95, MaxReal(0.3, raw));
    assert 30.0 <= clamped * 100.0 <= 95.0;
    Round(clamped * 100.0)
  }

  /** More completions in the window never lower the probability. */
  lemma ContinuationMonotone(c1: nat, c2: nat, streak: nat, completedToday: bool)
    requires c1 <= c2
    ensures ContinuationProbability(c1, streak, completedToday)
         <= ContinuationProbability(c2, streak, completedToday)
  {
    var b := (if streak > 0 then 0.1 else 0.0) + (if completedToday then 0.1 else 0.0);
    var x1 := MinReal(0.95, MaxReal(0.3, c1 as real / 30.0 + b)) * 100.0;
    var x2 := MinReal(0.95, MaxReal(0.3, c2 as real / 30.0 + b)) * 100.0;
    assert c1 as real / 30.0 <= c2 as real / 30.0;
    assert x1 <= x2;
  }

  /** `Math.round(historicalRate * 100)`. */
  function HistoricalCompletionRate(completedInLast30: nat): (r: int)
    ensures r >= 0
    ensures completedInLast30 <= 30 ==> r <= 100
  {
    Round(completedInLast30 as real / 30.0 * 100.0)
  }

  // ---- the route's longest streak ----

  /**
   * The route's calculateLongestStreak: the same scan as the calculator's,
   * with the day difference taken as the floor of the millisecond difference
   * divided by a day; on whole days that is the day difference.
   */
  method RouteLongestStreak(completedDates: seq<Day>) returns (longest: nat)
    ensures longest == LongestStreak(completedDates)
  {
    if |completedDates| == 0 {
      return 0;
    }
    var sorted := SortedDays(completedDates);
    var maxStreak := 1;
    var currentStreak := 1;
    for i := 1 to |sorted|
      invariant currentStreak == RunEndingAt(sorted, i - 1)
      invariant maxStreak == LongestRunIn(sorted, i)
    {
      var prev := sorted[i - 1] * MS_PER_DAY;
      var curr := sorted[i] * MS_PER_DAY;
      var diffDays := (curr - prev) / MS_PER_DAY;
      assert curr - prev == (sorted[i] - sorted[i - 1]) * MS_PER_DAY;
      assert diffDays == sorted[i] - sorted[i - 1];
      LongestRunStep(sorted, i);
      if diffDays == 1 {
        currentStreak := currentStreak + 1;
        maxStreak := if maxStreak >= currentStreak then maxStreak else currentStreak;
      } else {
        currentStreak := 1;
      }
    }
    return maxStreak;
  }

  // ---- one prediction per active habit, sorted by severity ----

  datatype Prediction = Prediction(
    habitId: string,
    habitName: string,
    currentStreak: nat,
    longestStreak: nat,
    riskLevel: RiskLevel,
    confidence: int,
    continuationProbability: int,
    factors: seq<string>,
    suggestions: seq<string>,
    completedToday: bool,
    historicalCompletionRate: int)

  /** The days of the 30-day window ending today. */
  function InLast30(today: Day): Day -> bool
  {
    (d: Day) => today - 30 < d <= today
  }

  /**
   * Everything the route reports for one habit, in terms of its completions:
   * with the route's streak the milestone rule never decides, so a high risk
   * always carries 95 and the at-risk factor, a medium one 85 from seven days
   * and 80 below, and a low one 90.
   */
  function PredictionOf(habit: Habit, today: Day): (p: Prediction)
    ensures p.habitId == habit.id && p.habitName == habit.name
    ensures p.currentStreak == PredictedStreak(habit.completedDates, today)
    ensures p.longestStreak == LongestStreak(habit.completedDates)
    ensures p.completedToday <==> today in habit.completedDates
    ensures p.riskLevel == High <==> p.currentStreak >= 14 && !p.completedToday
    ensures p.riskLevel == Medium <==> 5 <= p.currentStreak < 14 && !p.completedToday
    ensures p.riskLevel == High ==>
      p.confidence == 95 && p.factors == [StreakAtRiskText(p.currentStreak)] && p.suggestions == [SAVE_STREAK]
    ensures p.riskLevel == Medium && p.currentStreak >= 7 ==>
      p.confidence == 85 && p.factors == [NeedsAttentionText(p.currentStreak)] && p.suggestions == [BACK_ON_TRACK]
    ensures p.riskLevel == Medium && p.currentStreak < 7 ==>
      p.confidence == 80 && p.factors == [GrowingText(p.currentStreak)] && p.suggestions == [KEEP_MOMENTUM]
    ensures p.riskLevel == Low ==>
      p.confidence == 90
      && p.factors == (if p.completedToday then [COMPLETED_TODAY] else [])
      && p.suggestions == (if p.completedToday then [ON_FIRE] else [])
    ensures 30 <= p.continuationProbability <= 95
    ensures p.historicalCompletionRate >= 0
  {
    var dates := habit.completedDates;
    var completedToday := today in dates;
    var streak := PredictedStreak(dates, today);
    var a := RuleChain(streak, completedToday, today - 1 in dates);
    StreakImpliesYesterday(dates, today);
    assert Round(0.95 * 100.0) == 95 && Round(0.9 * 100.0) == 90;
    assert Round(0.85 * 100.0) == 85 && Round(0.8 * 100.0) == 80;
    var completedInLast30 := |Filter(dates, InLast30(today))|;
    Prediction(habit.id, habit.name, streak, LongestStreak(dates), a.riskLevel,
               Round(a.confidence * 100.0),
               ContinuationProbability(completedInLast30, streak, completedToday),
               a.factors, a.suggestions, completedToday,
               HistoricalCompletionRate(completedInLast30))
  }

  /** The body of the `map`: computes PredictionOf with the route's loops. */
  method PredictHabit(habit: Habit, today: Day) returns (p: Prediction)
    ensures p == PredictionOf(habit, today)
  {
    var completedDates := habit.completedDates;
    var completedToday := today in completedDates;
    var completedYesterday := today - 1 in completedDates;
    var currentStreak := ComputeStreak(completedDates, today);
    var a := AssessRisk(currentStreak, completedToday, completedYesterday);
    var last30Days := GetLast30Days(today);
    forall d ensures InWindow(last30Days)(d) == InLast30(today)(d) {
      assert InWindow(last30Days)(d) == (d in last30Days);
    }
    FilterEquiv(completedDates, InWindow(last30Days), InLast30(today));
    var completedInLast30 := |Filter(completedDates, InWindow(last30Days))|;
    var longest := RouteLongestStreak(completedDates);
    p := Prediction(habit.id, habit.name, currentStreak, longest, a.riskLevel,
                    Round(a.confidence * 100.0),
                    ContinuationProbability(completedInLast30, currentStreak, completedToday),
                    a.factors, a.suggestions, completedToday,
                    HistoricalCompletionRate(completedInLast30));
  }

  function PredictionRank(p: Prediction): int { RiskOrder(p.riskLevel) }

  function HasLevel(level: RiskLevel): Prediction -> bool
  {
    (p: Prediction) => p.riskLevel == level
  }

  /** The predictions of the `map`, one per habit, in habit order. */
  function Predictions(active: seq<Habit>, today: Day): (ps: seq<Prediction>)
    ensures |ps| == |active|
    ensures forall k :: 0 <= k < |ps| ==> ps[k] == PredictionOf(active[k], today)
  {
    seq(|active|, k requires 0 <= k < |active| => PredictionOf(active[k], today))
  }

  lemma PredictionsSnoc(active: seq<Habit>, i: nat, today: Day)
    requires i < |active|
    ensures Predictions(active[..i + 1], today) == Predictions(active[..i], today) + [PredictionOf(active[i], today)]
  {
    assert active[..i + 1] == active[..i] + [active[i]];
  }

  /**
   * generateStreakPredictions: one prediction per active habit, then a stable
   * sort by severity, which lists the high predictions, then the medium, then
   * the low, each group in habit order.
   */
  method GenerateStreakPredictions(habits: seq<Habit>, today: Day) returns (r: seq<Prediction>)
    ensures multiset(r) == multiset(Predictions(ActiveHabits(habits), today))
    ensures var ps := Predictions(ActiveHabits(habits), today);
      r == Filter(ps, HasLevel(High)) + Filter(ps, HasLevel(Medium)) + Filter(ps, HasLevel(Low))
  {
    var active := ActiveHabits(habits);
    var predictions: seq<Prediction> := [];
    for i := 0 to |active|
      invariant predictions == Predictions(active[..i], today)
    {
      var p := PredictHabit(active[i], today);
      PredictionsSnoc(active, i, today);
      predictions := predictions + [p];
    }
    assert active[..|active|] == active;
    r := Sort(predictions, ByRank(PredictionRank));
    SeverityOrder(predictions);
  }

  /** The severity sort keeps every prediction and groups high, then medium, then low, each in input order. */
  lemma SeverityOrder(preds: seq<Prediction>)
    ensures multiset(Sort(preds, ByRank(PredictionRank))) == multiset(preds)
    ensures Sort(preds, ByRank(PredictionRank))
         == Filter(preds, HasLevel(High)) + Filter(preds, HasLevel(Medium)) + Filter(preds, HasLevel(Low))
  {
    SortPermutes(preds, ByRank(PredictionRank));
    assert forall i :: 0 <= i < |preds| ==> 0 <= PredictionRank(preds[i]) <= 2;
    SortByRank3(preds, PredictionRank);
    LevelBucket(preds, High);
    LevelBucket(preds, Medium);
    LevelBucket(preds, Low);
  }

  /** The predictions of one severity rank are those of that level. */
  lemma LevelBucket(preds: seq<Prediction>, level: RiskLevel)
    ensures Filter(preds, HasRank(PredictionRank, RiskOrder(level))) == Filter(preds, HasLevel(level))
  {
    forall p: Prediction
      ensures HasRank(PredictionRank, RiskOrder(level))(p) == HasLevel(level)(p)
    {
      assert HasRank(PredictionRank, RiskOrder(level))(p) == (PredictionRank(p) == RiskOrder(level));
      assert HasLevel(level)(p) == (p.riskLevel == level);
    }
    FilterEquiv(preds, HasRank(PredictionRank, RiskOrder(level)), HasLevel(level));
  }
}
