/**
 * app/api/insights/route.ts, `generateInsights`: today's completion rate over
 * the active habits, the mean mood since the start of the window, and
 * threshold rules that push patterns, achievements and suggestions. The
 * request handling around it is not part of this model; the clock is the
 * `today`/`nowMs` pair of parameters, and the window start (now minus
 * `timeRange` days) is the day `today - timeRange`.
 */
module Insights {
  import opened Seqs
  import opened Arith
  import opened DateUtils
  import opened HabitTypes
  import opened MoodTypes
  import opened Text
  import MoodStore

  datatype PatternType = Positive | Negative

  /** The patterns the rules can push; `Title`, `Kind` and `Description` give their fields. */
  datatype Pattern = PerfectDay | GreatProgress(percent: nat) | RoomForImprovement
                   | ImprovingMood | MoodAwareness

  function Kind(p: Pattern): PatternType
  {
    match p
    case PerfectDay => Positive
    case GreatProgress(_) => Positive
    case RoomForImprovement => Negative
    case ImprovingMood => Positive
    case MoodAwareness => Negative
  }

  function Title(p: Pattern): string
  {
    match p
    case PerfectDay => "Perfect Day!"
    case GreatProgress(_) => "Great Progress"
    case RoomForImprovement => "Room for Improvement"
    case ImprovingMood => "Improving Mood"
    case MoodAwareness => "Mood Awareness"
  }

  function Description(p: Pattern): string
  {
    match p
    case PerfectDay => "You completed all your habits today!"
    case GreatProgress(percent) => "You completed " + NatToString(percent) + "% of habits today."
    case RoomForImprovement => "Try focusing on just one or two key habits today."
    case ImprovingMood => "Your mood has been trending upward recently!"
    case MoodAwareness => "Your mood has been trending down. Consider self-care activities."
  }

  datatype Achievement = PerfectCompletion | StreakAchievement(habitCount: nat)

  function AchievementText(a: Achievement): string
  {
    match a
    case PerfectCompletion => "Perfect completion day"
    case StreakAchievement(n) => "Maintained 7+ day streak on " + NatToString(n) + " habit(s)"
  }

  datatype Suggestion = StartWithOne | TakeTime | AddOne | Consolidate | TrackMood

  function SuggestionText(s: Suggestion): string
  {
    match s
    case StartWithOne => "Start with just one habit to build momentum"
    case TakeTime => "Take time for yourself - a break can help reset your mood"
    case AddOne => "Start by adding one simple habit to track"
    case Consolidate => "You have many habits - consider consolidating to maintain focus"
    case TrackMood => "Track your mood regularly to discover patterns"
  }

  datatype Summary = Summary(completionRate: int, avgMood: real, activeHabits: nat, moodEntries: nat)

  datatype Insights = Insights(
    summary: Summary,
    patterns: seq<Pattern>,
    achievements: seq<Achievement>,
    suggestions: seq<Suggestion>,
    generatedAt: int)

  function DoneOn(today: Day): Habit -> bool
  {
    (h: Habit) => today in h.completedDates
  }

  /**
   * The number of active habits completed today over the number of active
   * habits, 0 with no active habit. The rate is 1 exactly when there are
   * active habits and all are done today.
   */
  function CompletionRate(habits: seq<Habit>, today: Day): (r: real)
    ensures 0.0 <= r <= 1.0
    ensures ActiveHabits(habits) == [] ==> r == 0.0
    ensures r == 1.0 <==>
      && ActiveHabits(habits) != []
      && forall i :: 0 <= i < |ActiveHabits(habits)| ==> today in ActiveHabits(habits)[i].completedDates
    ensures ActiveHabits(habits) != [] ==>
      r == |set i | 0 <= i < |ActiveHabits(habits)| && today in ActiveHabits(habits)[i].completedDates| as real
           / |ActiveHabits(habits)| as real
  {
    var active := ActiveHabits(habits);
    var done := |Filter(active, DoneOn(today))|;
    FilterLength(active, DoneOn(today));
    FilterCount(active, DoneOn(today), set i | 0 <= i < |active| && today in active[i].completedDates);
    if |active| > 0 then
      MeanBounds(done, |active|, 0, 1);
      RatioIsOne(done, |active|);
      done as real / |active| as real
    else 0.0
  }

  /** `Math.round(rate * 100)` for a rate in [0, 1]. */
  function Percent(rate: real): (p: nat)
    requires 0.0 <= rate <= 1.0
    ensures p <= 100
    ensures p as real - 0.5 <= rate * 100.0 < p as real + 0.5
  {
    Round(rate * 100.0)
  }

  function OnOrAfter(pastDay: Day): MoodEntry -> bool
  {
    (m: MoodEntry) => m.date >= pastDay
  }

  function DayOnOrAfter(pastDay: Day): Day -> bool
  {
    (d: Day) => d >= pastDay
  }

  /** The streak-achievement test: at least 7 completions dated on or after the window start. */
  function SevenSince(pastDay: Day): Habit -> bool
  {
    (h: Habit) => |Filter(h.completedDates, DayOnOrAfter(pastDay))| >= 7
  }

  /** The moods dated on or after the window start (string `>=` on `YYYY-MM-DD` is day order). */
  function RecentMoods(moodHistory: seq<MoodEntry>, pastDay: Day): seq<MoodEntry>
  {
    Filter(moodHistory, OnOrAfter(pastDay))
  }

  /**
   * The recent moods are exactly the moods dated on or after the window
   * start, in the order of the history.
   */
  lemma RecentMoodsSelect(moodHistory: seq<MoodEntry>, pastDay: Day)
    ensures var r := RecentMoods(moodHistory, pastDay);
      && (forall i :: 0 <= i < |r| ==> r[i] in moodHistory && r[i].date >= pastDay)
      && (forall i :: 0 <= i < |moodHistory| && moodHistory[i].date >= pastDay ==> moodHistory[i] in r)
      && PicksAt(r, moodHistory, Kept(moodHistory, OnOrAfter(pastDay)))
  {
    FilterPicks(moodHistory, OnOrAfter(pastDay));
  }

  /** Score of the last of the final five recent moods minus the first of them. */
  function FiveMoodTrend(recent: seq<MoodEntry>): int
    requires |recent| >= 5
  {
    EntryScore(recent[|recent| - 1]) - EntryScore(recent[|recent| - 5])
  }

  // ---- what each group of rules pushes, in the route's order ----

  function CompletionPatterns(rate: real, activeCount: nat): seq<Pattern>
    requires 0.0 <= rate <= 1.0
  {
    if rate == 1.0 && activeCount > 0 then [PerfectDay]
    else if rate >= 0.75 then [GreatProgress(Percent(rate))]
    else if rate < 0.5 && activeCount > 0 then [RoomForImprovement]
    else []
  }

  function CompletionAchievements(rate: real, activeCount: nat): seq<Achievement>
  {
    if rate == 1.0 && activeCount > 0 then [PerfectCompletion] else []
  }

  function CompletionSuggestions(rate: real, activeCount: nat): seq<Suggestion>
  {
    if rate != 1.0 && rate < 0.5 && activeCount > 0 then [StartWithOne] else []
  }

  function MoodPatterns(recent: seq<MoodEntry>): seq<Pattern>
  {
    if |recent| >= 5 && FiveMoodTrend(recent) >= 1 then [ImprovingMood]
    else if |recent| >= 5 && FiveMoodTrend(recent) <= -1 then [MoodAwareness]
    else []
  }

  function MoodSuggestions(recent: seq<MoodEntry>): seq<Suggestion>
  {
    if |recent| >= 5 && FiveMoodTrend(recent) <= -1 then [TakeTime] else []
  }

  function CountSuggestions(activeCount: nat, moodCount: nat): seq<Suggestion>
  {
    (if activeCount == 0 then [AddOne] else if activeCount > 7 then [Consolidate] else [])
    + (if moodCount < 3 then [TrackMood] else [])
  }

  function StreakAchievements(streakCount: nat): seq<Achievement>
  {
    if streakCount > 0 then [StreakAchievement(streakCount)] else []
  }

  /**
   * The completion-pattern rules: the rate falls in exactly one band, and the
   * band decides the pattern, achievement and suggestion pushed.
   */
  method CompletionRules(completionRate: real, activeCount: nat)
    returns (patterns: seq<Pattern>, achievements: seq<Achievement>, suggestions: seq<Suggestion>)
    requires 0.0 <= completionRate <= 1.0
    requires activeCount == 0 ==> completionRate == 0.0
    ensures completionRate == 1.0 ==>
      patterns == [PerfectDay] && achievements == [PerfectCompletion] && suggestions == []
    ensures 0.75 <= completionRate < 1.0 ==>
      patterns == [GreatProgress(Percent(completionRate))] && achievements == [] && suggestions == []
    ensures 0.5 <= completionRate < 0.75 || activeCount == 0 ==>
      patterns == [] && achievements == [] && suggestions == []
    ensures completionRate < 0.5 && activeCount > 0 ==>
      patterns == [RoomForImprovement] && achievements == [] && suggestions == [StartWithOne]
    ensures |patterns| <= 1 && |achievements| <= 1 && |suggestions| <= 1
    ensures patterns == CompletionPatterns(completionRate, activeCount)
    ensures achievements == CompletionAchievements(completionRate, activeCount)
    ensures suggestions == CompletionSuggestions(completionRate, activeCount)
  {
    patterns, achievements, suggestions := [], [], [];
    if completionRate == 1.0 && activeCount > 0 {
      patterns := patterns + [PerfectDay];
      achievements := achievements + [PerfectCompletion];
    } else if completionRate >= 0.75 {
      patterns := patterns + [GreatProgress(Percent(completionRate))];
    } else if completionRate < 0.5 && activeCount > 0 {
      patterns := patterns + [RoomForImprovement];
      suggestions := suggestions + [StartWithOne];
    }
  }

  /**
   * The mood-pattern rules on the last five recent moods: the scores are
   * whole numbers, so "more than 0.5" is "at least 1".
   */
  method MoodRules(recentMoods: seq<MoodEntry>) returns (patterns: seq<Pattern>, suggestions: seq<Suggestion>)
    ensures |recentMoods| >= 5 && FiveMoodTrend(recentMoods) >= 1 ==>
      patterns == [ImprovingMood] && suggestions == []
    ensures |recentMoods| >= 5 && FiveMoodTrend(recentMoods) <= -1 ==>
      patterns == [MoodAwareness] && suggestions == [TakeTime]
    ensures |recentMoods| < 5 || FiveMoodTrend(recentMoods) == 0 ==>
      patterns == [] && suggestions == []
    ensures |patterns| <= 1 && |suggestions| <= 1
    ensures patterns == MoodPatterns(recentMoods) && suggestions == MoodSuggestions(recentMoods)
  {
    patterns, suggestions := [], [];
    if |recentMoods| >= 5 {
      var lastFive := recentMoods[|recentMoods| - 5..];
      var recentMoodScores := seq(5, i requires 0 <= i < 5 => EntryScore(lastFive[i]));
      var trend := recentMoodScores[4] - recentMoodScores[0];
      if trend as real > 0.5 {
        patterns := patterns + [ImprovingMood];
      } else if trend as real < -0.5 {
        patterns := patterns + [MoodAwareness];
        suggestions := suggestions + [TakeTime];
      }
    }
  }

  /** The suggestions that depend on how many habits and moods there are. */
  method CountRules(activeCount: nat, moodCount: nat) returns (suggestions: seq<Suggestion>)
    ensures AddOne in suggestions <==> activeCount == 0
    ensures Consolidate in suggestions <==> activeCount > 7
    ensures TrackMood in suggestions <==> moodCount < 3
    ensures TakeTime !in suggestions && StartWithOne !in suggestions
    ensures |suggestions| <= if moodCount < 3 then 2 else 1
    ensures suggestions == CountSuggestions(activeCount, moodCount)
  {
    suggestions := [];
    if activeCount == 0 {
      suggestions := suggestions + [AddOne];
    } else if activeCount > 7 {
      suggestions := suggestions + [Consolidate];
    }
    if moodCount < 3 {
      suggestions := suggestions + [TrackMood];
    }
  }

  /**
   * What the route promises of its pattern list: each pattern is present
   * exactly under its rule's condition, and there are at most two.
   */
  predicate PatternsHold(ps: seq<Pattern>, rate: real, activeCount: nat, recent: seq<MoodEntry>)
    requires 0.0 <= rate <= 1.0
  {
    && (PerfectDay in ps <==> rate == 1.0)
    && (GreatProgress(Percent(rate)) in ps <==> 0.75 <= rate < 1.0)
    && (RoomForImprovement in ps <==> activeCount > 0 && rate < 0.5)
    && (ImprovingMood in ps <==> |recent| >= 5 && FiveMoodTrend(recent) >= 1)
    && (MoodAwareness in ps <==> |recent| >= 5 && FiveMoodTrend(recent) <= -1)
    && |ps| <= 2
  }

  /** Each achievement is present exactly under its rule's condition; at most two. */
  predicate AchievementsHold(achieved: seq<Achievement>, rate: real, streakCount: nat)
  {
    && (PerfectCompletion in achieved <==> rate == 1.0)
    && (StreakAchievement(streakCount) in achieved <==> streakCount > 0)
    && |achieved| <= 2
  }

  /** Each suggestion is present exactly under its rule's condition; at most three. */
  predicate SuggestionsHold(ss: seq<Suggestion>, rate: real, activeCount: nat, recent: seq<MoodEntry>)
  {
    && (StartWithOne in ss <==> activeCount > 0 && rate < 0.5)
    && (TakeTime in ss <==> |recent| >= 5 && FiveMoodTrend(recent) <= -1)
    && (AddOne in ss <==> activeCount == 0)
    && (Consolidate in ss <==> activeCount > 7)
    && (TrackMood in ss <==> |recent| < 3)
    && |ss| <= 3
  }

  /** Which patterns the route pushes: the completion band's and the mood trend's. */
  lemma PatternsPushed(rate: real, activeCount: nat, recent: seq<MoodEntry>)
    requires 0.0 <= rate <= 1.0
    requires activeCount == 0 ==> rate == 0.0
    ensures PatternsHold(CompletionPatterns(rate, activeCount) + MoodPatterns(recent), rate, activeCount, recent)
  {
  }

  /** Which achievements the route pushes: a perfect day and the seven-day runs. */
  lemma AchievementsPushed(rate: real, activeCount: nat, streakCount: nat)
    requires activeCount == 0 ==> rate == 0.0
    ensures AchievementsHold(CompletionAchievements(rate, activeCount) + StreakAchievements(streakCount),
                             rate, streakCount)
  {
  }

  /** Which suggestions the route pushes, from the rate, the mood trend and the two counts. */
  lemma SuggestionsPushed(rate: real, activeCount: nat, recent: seq<MoodEntry>)
    ensures SuggestionsHold(CompletionSuggestions(rate, activeCount) + MoodSuggestions(recent)
                            + CountSuggestions(activeCount, |recent|), rate, activeCount, recent)
  {
    var moods, counts := MoodSuggestions(recent), CountSuggestions(activeCount, |recent|);
    assert forall x :: x in moods ==> x == TakeTime;
    assert forall x :: x in counts ==> x in {AddOne, Consolidate, TrackMood};
  }

  /**
   * The rule chain of the route, on the values it reads: the completion rate,
   * the number of active habits, how many of them hold a seven-day run and
   * the recent moods. Patterns, achievements and suggestions are pushed in
   * the route's order.
   */
  method ApplyRules(rate: real, activeCount: nat, streakCount: nat, recent: seq<MoodEntry>)
    returns (patterns: seq<Pattern>, achievements: seq<Achievement>, suggestions: seq<Suggestion>)
    requires 0.0 <= rate <= 1.0
    requires activeCount == 0 ==> rate == 0.0
    // the lists, in the order the route pushes; PatternsPushed, AchievementsPushed
    // and SuggestionsPushed state which rule condition puts each entry there
    ensures patterns == CompletionPatterns(rate, activeCount) + MoodPatterns(recent)
    ensures achievements == CompletionAchievements(rate, activeCount) + StreakAchievements(streakCount)
    ensures suggestions ==
      CompletionSuggestions(rate, activeCount) + MoodSuggestions(recent) + CountSuggestions(activeCount, |recent|)
  {
    patterns, achievements, suggestions := CompletionRules(rate, activeCount);

    if streakCount > 0 {
      achievements := achievements + [StreakAchievement(streakCount)];
    }

    var moodPatterns, moodSuggestions := MoodRules(recent);
    patterns := patterns + moodPatterns;
    suggestions := suggestions + moodSuggestions;

    var countSuggestions := CountRules(activeCount, |recent|);
    suggestions := suggestions + countSuggestions;
  }

  /**
   * generateInsights: the summary numbers and the rule chain over the habits
   * active now and the moods logged since `today - timeRange`.
   */
  method GenerateInsights(habits: seq<Habit>, moodHistory: seq<MoodEntry>, timeRange: int,
                          today: Day, nowMs: int) returns (ins: Insights)
    ensures ins.generatedAt == nowMs
    ensures ins.summary.activeHabits == |ActiveHabits(habits)|
    ensures ins.summary.moodEntries == |RecentMoods(moodHistory, today - timeRange)|
    ensures ins.summary.completionRate == Percent(CompletionRate(habits, today))
    ensures 0 <= ins.summary.completionRate <= 100
    ensures ins.summary.avgMood == MoodStore.AverageMoodScore(RecentMoods(moodHistory, today - timeRange))
    // the lists, in the order the route pushes (GeneratedRulesHold states their conditions)
    ensures var rate, active, recent :=
      CompletionRate(habits, today), |ActiveHabits(habits)|, RecentMoods(moodHistory, today - timeRange);
      && ins.patterns == CompletionPatterns(rate, active) + MoodPatterns(recent)
      && ins.achievements == CompletionAchievements(rate, active)
                             + StreakAchievements(|Filter(ActiveHabits(habits), SevenSince(today - timeRange))|)
      && ins.suggestions == CompletionSuggestions(rate, active) + MoodSuggestions(recent)
                            + CountSuggestions(active, |recent|)
  {
    var pastDay := today - timeRange;
    var recentMoods := RecentMoods(moodHistory, pastDay);
    var activeHabits := ActiveHabits(habits);
    var completionRate := CompletionRate(habits, today);
    var avgMood := if |recentMoods| > 0 then MeanScore(recentMoods) else 0.0;
    var streakAchievements := Filter(activeHabits, SevenSince(pastDay));

    var patterns, achievements, suggestions :=
      ApplyRules(completionRate, |activeHabits|, |streakAchievements|, recentMoods);

    ins := Insights(Summary(Percent(completionRate), RoundTenth(avgMood), |activeHabits|, |recentMoods|),
                    patterns, achievements, suggestions, nowMs);
  }

  /**
   * The lists generateInsights returns keep the route's promise: each
   * pattern, achievement and suggestion is present exactly under its rule's
   * condition.
   */
  lemma GeneratedRulesHold(habits: seq<Habit>, moodHistory: seq<MoodEntry>, timeRange: int, today: Day,
                           ins: Insights)
    requires var rate, active, recent :=
      CompletionRate(habits, today), |ActiveHabits(habits)|, RecentMoods(moodHistory, today - timeRange);
      && ins.patterns == CompletionPatterns(rate, active) + MoodPatterns(recent)
      && ins.achievements == CompletionAchievements(rate, active)
                             + StreakAchievements(|Filter(ActiveHabits(habits), SevenSince(today - timeRange))|)
      && ins.suggestions == CompletionSuggestions(rate, active) + MoodSuggestions(recent)
                            + CountSuggestions(active, |recent|)
    ensures var rate, active, recent :=
      CompletionRate(habits, today), |ActiveHabits(habits)|, RecentMoods(moodHistory, today - timeRange);
      && PatternsHold(ins.patterns, rate, active, recent)
      && AchievementsHold(ins.achievements, rate, |Filter(ActiveHabits(habits), SevenSince(today - timeRange))|)
      && SuggestionsHold(ins.suggestions, rate, active, recent)
  {
    var rate, active, recent :=
      CompletionRate(habits, today), |ActiveHabits(habits)|, RecentMoods(moodHistory, today - timeRange);
    PatternsPushed(rate, active, recent);
    AchievementsPushed(rate, active, |Filter(ActiveHabits(habits), SevenSince(today - timeRange))|);
    SuggestionsPushed(rate, active, recent);
  }
}
