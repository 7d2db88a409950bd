/** The records of lib/types/habit.ts. */
module HabitTypes {
  import opened Wrappers
  import opened DateUtils

  datatype Category = Health | Productivity | Mindfulness | Social | Other

  /**
   * A habit. `createdAt` is the creation instant in milliseconds;
   * `completedDates` are calendar days, in whatever order the store keeps them.
   */
  datatype Habit = Habit(
    id: string,
    name: string,
    description: Option<string>,
    icon: Option<string>,
    color: Option<string>,
    createdAt: int,
    targetDays: Option<int>,
    completedDates: seq<Day>,
    category: Option<Category>,
    active: bool)

  datatype StreakData = StreakData(currentStreak: nat, longestStreak: nat, streakStartDate: Option<Day>)

  datatype RiskLevel = Low | Medium | High

  /** The `riskOrder` table of the risk sorts: high 0, medium 1, low 2. */
  function RiskOrder(l: RiskLevel): int
  {
    match l
    case High => 0
    case Medium => 1
    case Low => 2
  }

  function IsActive(h: Habit): bool { h.active }

  function ActiveHabits(habits: seq<Habit>): seq<Habit>
  {
    Seqs.Filter(habits, IsActive)
  }

  import Seqs
}
