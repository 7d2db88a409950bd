/**
 * components/ai/StreakPredictor.tsx, the `streakRisks` computation and the
 * `visibleRisks` filter. Its rule table reuses the route's conditions and
 * texts but is written as three separate `if` blocks, so a later block
 * overwrites the risk level an earlier one set. The streak it reads is the
 * calculator's current streak.
 */
module StreakPredictor {
  import opened Seqs
  import opened Sorting
  import opened DateUtils
  import opened HabitTypes
  import opened StreakCalculator
  import opened Predict

  /**
   * The three blocks as written: high, then medium, then low. Every high
   * condition implies a medium one, so high never survives, whatever the
   * streak; such a habit ends medium with two factors.
   */
  method AssessOverwriting(streak: nat, completedToday: bool, completedYesterday: bool) returns (a: Assessment)
    ensures a.riskLevel != High
    ensures a.confidence == (if AtRisk(streak, completedToday, completedYesterday) then 0.95 else 0.9)
    ensures |a.factors| == |a.suggestions| <= 2
    ensures AtRisk(streak, completedToday, completedYesterday) || Milestone(streak, completedToday) ==>
      a.riskLevel == Medium && |a.factors| == 2
    ensures completedToday ==> a == Assessment(Low, 0.9, [COMPLETED_TODAY], [ON_FIRE])
    ensures a.riskLevel == Medium <==>
      !completedToday && (NeedsAttention(streak, completedToday, completedYesterday) || Growing(streak, completedToday))
  {
    var riskLevel := Low;
    var confidence := 0.9;
    var factors: seq<string> := [];
    var suggestions: seq<string> := [];

    if streak >= 14 && !completedToday && completedYesterday {
      riskLevel := High;
      factors := factors + [StreakAtRiskText(streak)];
      suggestions := suggestions + [SAVE_STREAK];
      confidence := 0.95;
    } else if streak >= 30 && !completedToday {
      riskLevel := High;
      factors := factors + [MilestoneText(streak)];
      suggestions := suggestions + [PROTECT_IT];
      confidence := 0.9;
    }

    if streak >= 7 && !completedToday && completedYesterday {
      riskLevel := Medium;
      factors := factors + [NeedsAttentionText(streak)];
      suggestions := suggestions + [BACK_ON_TRACK];
    } else if streak >= 5 && !completedToday {
      riskLevel := Medium;
      factors := factors + [GrowingText(streak)];
      suggestions := suggestions + [KEEP_MOMENTUM];
    }

    if completedToday {
      riskLevel := Low;
      factors := factors + [COMPLETED_TODAY];
      suggestions := suggestions + [ON_FIRE];
    }
    a := Assessment(riskLevel, confidence, factors, suggestions);
  }

  datatype RiskCard = RiskCard(
    habitId: string,
    habitName: string,
    currentStreak: nat,
    riskLevel: RiskLevel,
    confidence: real,
    factors: seq<string>,
    suggestions: seq<string>)

  /**
   * The body of the `map` for one habit. With the calculator's streak, a
   * positive streak means today is completed, so every card is low.
   */
  method AssessHabit(habit: Habit, today: Day) returns (card: RiskCard)
    ensures card.habitId == habit.id
    ensures card.currentStreak == CurrentStreak(habit.completedDates, today)
    ensures card.riskLevel == Low
  {
    var streak := CalculateCurrentStreak(habit, today);
    var completedToday := today in habit.completedDates;
    var yesterday := today - 1;
    var completedYesterday := yesterday in habit.completedDates;
    var a := AssessOverwriting(streak, completedToday, completedYesterday);
    card := RiskCard(habit.id, habit.name, streak, a.riskLevel, a.confidence, a.factors, a.suggestions);
  }

  function NotLow(c: RiskCard): bool { c.riskLevel != Low }

  function CardRank(c: RiskCard): int { RiskOrder(c.riskLevel) }

  /**
   * streakRisks: the cards of the active habits, without the low ones,
   * sorted high before medium. Every card is low, so the list is empty.
   */
  method StreakRisks(habits: seq<Habit>, today: Day) returns (risks: seq<RiskCard>)
    ensures risks == []
  {
    var activeHabits := Filter(habits, IsActive);
    var cards: seq<RiskCard> := [];
    for i := 0 to |activeHabits|
      invariant |cards| == i
      invariant forall k :: 0 <= k < i ==> cards[k].riskLevel == Low
    {
      var card := AssessHabit(activeHabits[i], today);
      cards := cards + [card];
    }
    FilterNone(cards, NotLow);
    risks := Sort(Filter(cards, NotLow), ByRank(CardRank));
  }

  function NotDismissed(dismissedIds: seq<string>): RiskCard -> bool
  {
    (c: RiskCard) => c.habitId !in dismissedIds
  }

  /** visibleRisks: the cards whose habit was not dismissed, in the same order. */
  function VisibleRisks(streakRisks: seq<RiskCard>, dismissedIds: seq<string>): (r: seq<RiskCard>)
    ensures |r| <= |streakRisks|
    ensures forall i :: 0 <= i < |r| ==> r[i] in streakRisks && r[i].habitId !in dismissedIds
    ensures forall i :: 0 <= i < |streakRisks| && streakRisks[i].habitId !in dismissedIds ==>
      streakRisks[i] in r
    ensures PicksAt(r, streakRisks, Kept(streakRisks, NotDismissed(dismissedIds)))
  {
    FilterPicks(streakRisks, NotDismissed(dismissedIds));
    Filter(streakRisks, NotDismissed(dismissedIds))
  }

  /** Dismissing nothing shows every card; dismissing more never shows more. */
  lemma VisibleRisksMonotone(risks: seq<RiskCard>, fewer: seq<string>, more: seq<string>)
    requires forall id :: id in fewer ==> id in more
    ensures VisibleRisks(risks, []) == risks
    ensures |VisibleRisks(risks, more)| <= |VisibleRisks(risks, fewer)|
  {
    FilterAll(risks, NotDismissed([]));
    FilterFilter(risks, NotDismissed(fewer), NotDismissed(more), NotDismissed(more));
  }
}
