/**
 * lib/stores/habitStore.ts: the zustand store holding the habit list. The
 * store object is a class whose one field is the list every action replaces;
 * each action is specified by a function on lists, and the properties of the
 * actions are lemmas about those functions. The clock (`Date.now()`,
 * `new Date()`) and the random id suffix are parameters.
 */
module HabitStore {
  import opened Wrappers
  import opened Seqs
  import opened DateUtils
  import opened HabitTypes
  import opened StreakCalculator

  /** `Omit<Habit, 'id' | 'createdAt' | 'completedDates'>`: what addHabit is given. */
  datatype HabitInput = HabitInput(
    name: string,
    description: Option<string>,
    icon: Option<string>,
    color: Option<string>,
    targetDays: Option<int>,
    category: Option<Category>,
    active: bool)

  /** The habit addHabit appends: the input, a fresh id, the creation instant, no completions. */
  function NewHabit(input: HabitInput, id: string, nowMs: int): Habit
  {
    Habit(id, input.name, input.description, input.icon, input.color, nowMs,
          input.targetDays, [], input.category, input.active)
  }

  /** `Partial<Habit>`: `Some(v)` for every key the update object carries. */
  datatype HabitPatch = HabitPatch(
    id: Option<string>,
    name: Option<string>,
    description: Option<Option<string>>,
    icon: Option<Option<string>>,
    color: Option<Option<string>>,
    createdAt: Option<int>,
    targetDays: Option<Option<int>>,
    completedDates: Option<seq<Day>>,
    category: Option<Option<Category>>,
    active: Option<bool>)

  /** `{ ...habit, ...updates }`: each key the patch carries wins. */
  function ApplyPatch(h: Habit, p: HabitPatch): Habit
  {
    Habit(Or(p.id, h.id), Or(p.name, h.name), Or(p.description, h.description),
          Or(p.icon, h.icon), Or(p.color, h.color), Or(p.createdAt, h.createdAt),
          Or(p.targetDays, h.targetDays), Or(p.completedDates, h.completedDates),
          Or(p.category, h.category), Or(p.active, h.active))
  }

  /** Spreading a patch twice is spreading it once; an empty patch changes nothing. */
  lemma ApplyPatchIdempotent(h: Habit, p: HabitPatch)
    ensures ApplyPatch(ApplyPatch(h, p), p) == ApplyPatch(h, p)
    ensures ApplyPatch(h, HabitPatch(None, None, None, None, None, None, None, None, None, None)) == h
  {
  }

  /** updateHabit's list: every habit carrying `id` is patched, the others are kept, in order. */
  function UpdateIn(habits: seq<Habit>, id: string, p: HabitPatch): (r: seq<Habit>)
    ensures |r| == |habits|
    ensures forall i :: 0 <= i < |r| && habits[i].id != id ==> r[i] == habits[i]
    ensures forall i :: 0 <= i < |r| && habits[i].id == id ==> r[i] == ApplyPatch(habits[i], p)
  {
    seq(|habits|, i requires 0 <= i < |habits| =>
      if habits[i].id == id then ApplyPatch(habits[i], p) else habits[i])
  }

  function HasOtherId(id: string): Habit -> bool
  {
    (h: Habit) => h.id != id
  }

  /** deleteHabit's list: the habits whose id differs, in their order. */
  function DeleteIn(habits: seq<Habit>, id: string): (r: seq<Habit>)
    ensures forall i :: 0 <= i < |r| ==> r[i] in habits && r[i].id != id
    ensures forall i {:trigger habits[i] in r} :: 0 <= i < |habits| && habits[i].id != id ==> habits[i] in r
    ensures PicksAt(r, habits, Kept(habits, HasOtherId(id)))
  {
    FilterPicks(habits, HasOtherId(id));
    Filter(habits, HasOtherId(id))
  }

  /** Deleting an id no habit carries changes nothing. */
  lemma DeleteAbsent(habits: seq<Habit>, id: string)
    requires forall i :: 0 <= i < |habits| ==> habits[i].id != id
    ensures DeleteIn(habits, id) == habits
  {
    FilterAll(habits, HasOtherId(id));
  }

  function NotDay(date: Day): Day -> bool
  {
    d => d != date
  }

  /** Days in ascending order, repeats allowed: what `sort()` leaves. */
  predicate Ascending(s: seq<Day>)
  {
    forall i, j :: 0 <= i < j < |s| ==> s[i] <= s[j]
  }

  lemma {:induction false} FilterDayMultiset(s: seq<Day>, date: Day)
    ensures multiset(Filter(s, NotDay(date))) == multiset(s)[date := 0]
  {
    if s != [] {
      var s' := s[..|s| - 1];
      FilterDayMultiset(s', date);
      assert s == s' + [s[|s| - 1]];
    }
  }

  lemma {:induction false} FilterDayAscending(s: seq<Day>, date: Day)
    requires Ascending(s)
    ensures Ascending(Filter(s, NotDay(date)))
  {
    if s != [] {
      var s' := s[..|s| - 1];
      assert Ascending(s');
      FilterDayAscending(s', date);
      var f' := Filter(s', NotDay(date));
      forall i | 0 <= i < |f'|
        ensures f'[i] <= s[|s| - 1]
      {
        var k :| 0 <= k < |s'| && s'[k] == f'[i];
      }
    }
  }

  /**
   * The completion list after toggleCompletion: a completed day is removed
   * (every copy of it); a missing one is added and the list re-sorted.
   */
  function ToggleDates(dates: seq<Day>, date: Day): (r: seq<Day>)
    ensures date in r <==> date !in dates
    ensures forall d :: d != date ==> (d in r <==> d in dates)
    ensures date in dates ==> multiset(r) == multiset(dates)[date := 0]
    ensures date in dates ==> PicksAt(r, dates, Kept(dates, NotDay(date)))
    ensures date !in dates ==> multiset(r) == multiset(dates) + multiset{date} && Ascending(r)
  {
    if date in dates then
      FilterDayMultiset(dates, date);
      FilterPicks(dates, NotDay(date));
      Filter(dates, NotDay(date))
    else
      var r := SortedDays(dates + [date]);
      assert forall d :: d in r <==> d in multiset(dates + [date]);
      r
  }

  /** A sorted list stays sorted under toggling. */
  lemma ToggleKeepsAscending(dates: seq<Day>, date: Day)
    requires Ascending(dates)
    ensures Ascending(ToggleDates(dates, date))
  {
    if date in dates {
      FilterDayAscending(dates, date);
    }
  }

  /** Two ascending lists holding the same days are the same list. */
  lemma {:induction false} AscendingUnique(s: seq<Day>, t: seq<Day>)
    requires Ascending(s) && Ascending(t) && multiset(s) == multiset(t)
    ensures s == t
    decreases |s|
  {
    assert |t| == |s| by {
      assert |multiset(s)| == |multiset(t)|;
    }
    if s != [] {
      HeadIsLeast(s, t);
      HeadIsLeast(t, s);
      AscendingTail(s);
      AscendingTail(t);
      AscendingUnique(s[1..], t[1..]);
      assert s == [s[0]] + s[1..] && t == [t[0]] + t[1..];
    }
  }

  /** Dropping the head keeps a list ascending and removes one copy of the head. */
  lemma AscendingTail(s: seq<Day>)
    requires Ascending(s) && |s| > 0
    ensures Ascending(s[1..])
    ensures multiset(s[1..]) == multiset(s) - multiset{s[0]}
  {
    assert s == [s[0]] + s[1..];
  }

  /** The head of an ascending list is at most any element of a list with the same days. */
  lemma HeadIsLeast(s: seq<Day>, t: seq<Day>)
    requires Ascending(s) && |s| > 0 && multiset(s) == multiset(t)
    ensures |t| > 0 && s[0] <= t[0]
  {
    assert t[0] in multiset(s) by {
      assert |multiset(t)| == |multiset(s)|;
      assert t[0] in multiset(t);
    }
    var k :| 0 <= k < |s| && s[k] == t[0];
  }

  /**
   * Toggling the same day twice restores a sorted list that holds that day
   * at most once.
   */
  lemma ToggleTwice(dates: seq<Day>, date: Day)
    requires Ascending(dates) && multiset(dates)[date] <= 1
    ensures ToggleDates(ToggleDates(dates, date), date) == dates
  {
    var once := ToggleDates(dates, date);
    var twice := ToggleDates(once, date);
    if date in dates {
      ToggleKeepsAscending(dates, date);
      assert multiset(twice) == multiset(dates);
    } else {
      ToggleKeepsAscending(once, date);
      assert multiset(twice) == multiset(dates);
    }
    ToggleKeepsAscending(dates, date);
    ToggleKeepsAscending(once, date);
    AscendingUnique(twice, dates);
  }

  /** toggleCompletion's list: the habits carrying `habitId` get their days toggled. */
  function ToggleIn(habits: seq<Habit>, habitId: string, date: Day): (r: seq<Habit>)
    ensures |r| == |habits|
    ensures forall i :: 0 <= i < |r| && habits[i].id != habitId ==> r[i] == habits[i]
    ensures forall i :: 0 <= i < |r| && habits[i].id == habitId ==>
      r[i] == habits[i].(completedDates := ToggleDates(habits[i].completedDates, date))
  {
    seq(|habits|, i requires 0 <= i < |habits| =>
      if habits[i].id == habitId
      then habits[i].(completedDates := ToggleDates(habits[i].completedDates, date))
      else habits[i])
  }

  /** Toggling a day twice restores the store when the habit's days are sorted and distinct there. */
  lemma ToggleInTwice(habits: seq<Habit>, habitId: string, date: Day)
    requires forall i :: 0 <= i < |habits| && habits[i].id == habitId ==>
      Ascending(habits[i].completedDates) && multiset(habits[i].completedDates)[date] <= 1
    ensures ToggleIn(ToggleIn(habits, habitId, date), habitId, date) == habits
  {
    var twice := ToggleIn(ToggleIn(habits, habitId, date), habitId, date);
    forall i | 0 <= i < |habits| && habits[i].id == habitId
      ensures twice[i] == habits[i]
    {
      ToggleTwice(habits[i].completedDates, date);
    }
  }

  function HasId(id: string): Habit -> bool
  {
    (h: Habit) => h.id == id
  }

  /** getHabitById (`find`): the first habit carrying `id`, None when there is none. */
  function FindById(habits: seq<Habit>, id: string): (r: Option<Habit>)
    ensures r.None? <==> forall i :: 0 <= i < |habits| ==> habits[i].id != id
    ensures r.Some? ==> r.value.id == id
    ensures r.Some? ==> exists i :: 0 <= i < |habits| && habits[i] == r.value &&
                          forall k :: 0 <= k < i ==> habits[k].id != id
  {
    var r := Find(habits, HasId(id));
    assert r.Some? ==> HasId(id)(habits[FindIndex(habits, HasId(id))]);
    r
  }

  /** A habit added under an id no other habit carries is found by that id. */
  lemma {:induction false} FindAdded(habits: seq<Habit>, h: Habit)
    requires forall i :: 0 <= i < |habits| ==> habits[i].id != h.id
    ensures FindById(habits + [h], h.id) == Some(h)
  {
    var s := habits + [h];
    assert s[|habits|] == h;
    assert FindIndex(s, HasId(h.id)) == |habits|;
  }

  /** After deleteHabit nothing is found under the id. */
  lemma FindDeleted(habits: seq<Habit>, id: string)
    ensures FindById(DeleteIn(habits, id), id) == None
  {
  }

  function HasCategory(category: Option<Category>): Habit -> bool
  {
    (h: Habit) => h.category == category
  }

  function CompletedOn(today: Day): Habit -> bool
  {
    (h: Habit) => today in h.completedDates
  }

  function StreakOf(today: Day): Habit -> int
  {
    (h: Habit) => CurrentStreak(h.completedDates, today) as int
  }

  /** The sum of the current streaks is 0 exactly when no habit's newest completion is today. */
  lemma TotalStreaksZero(habits: seq<Habit>, today: Day)
    ensures Sum(habits, StreakOf(today)) >= 0
    ensures Sum(habits, StreakOf(today)) == 0 <==>
      forall i :: 0 <= i < |habits| ==>
        habits[i].completedDates == [] || Max(habits[i].completedDates) != today
  {
    SumZero(habits, StreakOf(today));
  }

  /** The store: the persisted habit list. */
  class Store {
    var habits: seq<Habit>

    /** `initialHabits` is empty. */
    constructor()
      ensures habits == []
    {
      habits := [];
    }

    /** addHabit: appends the new habit and returns its id. */
    method AddHabit(input: HabitInput, freshId: string, nowMs: int) returns (id: string)
      modifies this
      ensures id == freshId
      ensures habits == old(habits) + [NewHabit(input, freshId, nowMs)]
    {
      var newHabit := NewHabit(input, freshId, nowMs);
      habits := habits + [newHabit];
      id := newHabit.id;
    }

    method UpdateHabit(id: string, updates: HabitPatch)
      modifies this
      ensures habits == UpdateIn(old(habits), id, updates)
    {
      habits := UpdateIn(habits, id, updates);
    }

    method DeleteHabit(id: string)
      modifies this
      ensures habits == DeleteIn(old(habits), id)
    {
      habits := DeleteIn(habits, id);
    }

    method ToggleCompletion(habitId: string, date: Day)
      modifies this
      ensures habits == ToggleIn(old(habits), habitId, date)
    {
      habits := ToggleIn(habits, habitId, date);
    }

    function GetHabitById(id: string): (r: Option<Habit>)
      reads this
      ensures r.Some? ==> r.value in habits && r.value.id == id
      ensures r.None? <==> forall i :: 0 <= i < |habits| ==> habits[i].id != id
      ensures r.Some? ==> exists i :: 0 <= i < |habits| && habits[i] == r.value &&
                            forall k :: 0 <= k < i ==> habits[k].id != id
    {
      FindById(habits, id)
    }

    /** getActiveHabits: the active habits, in order. */
    function GetActiveHabits(): (r: seq<Habit>)
      reads this
      ensures forall i :: 0 <= i < |r| ==> r[i] in habits && r[i].active
      ensures forall i {:trigger habits[i] in r} :: 0 <= i < |habits| && habits[i].active ==> habits[i] in r
      ensures PicksAt(r, habits, Kept(habits, IsActive))
    {
      FilterPicks(habits, IsActive);
      ActiveHabits(habits)
    }

    /** getHabitsByCategory: habits whose category equals the argument (absent matches absent). */
    function GetHabitsByCategory(category: Option<Category>): (r: seq<Habit>)
      reads this
      ensures forall i :: 0 <= i < |r| ==> r[i] in habits && r[i].category == category
      ensures forall i {:trigger habits[i] in r} :: 0 <= i < |habits| && habits[i].category == category ==> habits[i] in r
      ensures PicksAt(r, habits, Kept(habits, HasCategory(category)))
    {
      FilterPicks(habits, HasCategory(category));
      Filter(habits, HasCategory(category))
    }

    /** getTodayHabits reads the date but does not use it: it is the active list. */
    function GetTodayHabits(today: Day): (r: seq<Habit>)
      reads this
      ensures r == GetActiveHabits()
    {
      Filter(habits, IsActive)
    }

    method GetStreakForHabit(habitId: string, today: Day) returns (streak: nat)
      ensures FindById(habits, habitId).None? ==> streak == 0
      ensures FindById(habits, habitId).Some? ==>
        streak == CurrentStreak(FindById(habits, habitId).value.completedDates, today)
    {
      var habit := GetHabitById(habitId);
      if habit.None? {
        return 0;
      }
      streak := CalculateCurrentStreak(habit.value, today);
    }

    method GetLongestStreakForHabit(habitId: string) returns (longest: nat)
      ensures FindById(habits, habitId).None? ==> longest == 0
      ensures FindById(habits, habitId).Some? ==>
        longest == LongestStreak(FindById(habits, habitId).value.completedDates)
    {
      var habit := GetHabitById(habitId);
      if habit.None? {
        return 0;
      }
      longest := CalculateLongestStreak(habit.value);
    }

    method ResetStore()
      modifies this
      ensures habits == []
    {
      habits := [];
    }

    /** selectActiveHabits goes through getTodayHabits. */
    function SelectActiveHabits(today: Day): (r: seq<Habit>)
      reads this
      ensures forall i :: 0 <= i < |r| ==> r[i] in habits && r[i].active
      ensures forall i {:trigger habits[i] in r} :: 0 <= i < |habits| && habits[i].active ==> habits[i] in r
      ensures r == GetActiveHabits()
      ensures PicksAt(r, habits, Kept(habits, IsActive))
    {
      GetTodayHabits(today)
    }

    /** selectCompletedToday: the habits, active or not, whose days include today. */
    function SelectCompletedToday(today: Day): (r: seq<Habit>)
      reads this
      ensures forall i :: 0 <= i < |r| ==> r[i] in habits && today in r[i].completedDates
      ensures forall i {:trigger habits[i] in r} :: 0 <= i < |habits| && today in habits[i].completedDates ==> habits[i] in r
      ensures PicksAt(r, habits, Kept(habits, CompletedOn(today)))
    {
      FilterPicks(habits, CompletedOn(today));
      Filter(habits, CompletedOn(today))
    }

    /** selectTotalStreaks: the `reduce` summing every habit's current streak. */
    method SelectTotalStreaks(today: Day) returns (total: int)
      ensures total == Sum(habits, StreakOf(today))
    {
      total := 0;
      for i := 0 to |habits|
        invariant total == Sum(habits[..i], StreakOf(today))
      {
        assert habits[..i + 1][..i] == habits[..i];
        var streak := CalculateCurrentStreak(habits[i], today);
        total := total + streak;
      }
      assert habits[..|habits|] == habits;
    }
  }
}
