/**
 * app/habits/page.tsx: `filteredHabits` (search and category filter, then
 * active habits first and newest first), its split into active and inactive
 * habits, and the per-category counts on the filter buttons. `createdAt`
 * is the creation instant in milliseconds, so `new Date(..).getTime()` is
 * that number.
 */
module HabitsPage {
  import opened Wrappers
  import opened Seqs
  import opened Sorting
  import opened HabitTypes
  import opened Text

  /** The category filter: 'all' or one of the five categories. */
  datatype Selection = AllCategories | OneCategory(category: Category)

  /** `matchesSearch`: the lower-cased query occurs in the lower-cased name or description. */
  predicate MatchesSearch(h: Habit, query: string)
  {
    || Contains(ToLower(h.name), ToLower(query))
    || (h.description.Some? && Contains(ToLower(h.description.value), ToLower(query)))
  }

  predicate MatchesCategory(h: Habit, selected: Selection)
  {
    selected.AllCategories? || h.category == Some(selected.category)
  }

  function Matches(query: string, selected: Selection): Habit -> bool
  {
    (h: Habit) => MatchesSearch(h, query) && MatchesCategory(h, selected)
  }

  /**
   * The comparator: a negative result puts `a` first. Active before
   * inactive; between equals in activity, the later creation first.
   */
  function ActiveThenNewest(a: Habit, b: Habit): bool
  {
    if a.active != b.active then a.active else b.createdAt - a.createdAt < 0
  }

  lemma ActiveThenNewestIsStrictWeakOrder()
    ensures StrictWeakOrder(ActiveThenNewest)
  {
  }

  /** The `sort` with that comparator: a permutation with active habits first, newest first within each group. */
  function SortActiveFirst(kept: seq<Habit>): (r: seq<Habit>)
    ensures multiset(r) == multiset(kept)
    ensures forall i, j :: 0 <= i < j < |r| ==> r[i].active || !r[j].active
    ensures forall i, j :: 0 <= i < j < |r| && r[i].active == r[j].active ==> r[i].createdAt >= r[j].createdAt
  {
    SortPermutes(kept, ActiveThenNewest);
    ActiveThenNewestIsStrictWeakOrder();
    SortSorted(kept, ActiveThenNewest);
    var r := Sort(kept, ActiveThenNewest);
    assert forall i, j :: 0 <= i < j < |r| ==> !ActiveThenNewest(r[j], r[i]);
    r
  }

  /** filteredHabits: the matching habits, sorted. */
  function FilteredHabits(habits: seq<Habit>, query: string, selected: Selection): (r: seq<Habit>)
    ensures multiset(r) == multiset(Filter(habits, Matches(query, selected)))
    ensures forall i :: 0 <= i < |r| ==> MatchesSearch(r[i], query) && MatchesCategory(r[i], selected)
    ensures forall i :: 0 <= i < |habits| && MatchesSearch(habits[i], query) && MatchesCategory(habits[i], selected) ==>
      habits[i] in r
    ensures forall i, j :: 0 <= i < j < |r| ==> r[i].active || !r[j].active
    ensures forall i, j :: 0 <= i < j < |r| && r[i].active == r[j].active ==> r[i].createdAt >= r[j].createdAt
  {
    var kept := Filter(habits, Matches(query, selected));
    var r := SortActiveFirst(kept);
    SameElements(r, kept);
    assert forall i :: 0 <= i < |r| ==> r[i] in kept && Matches(query, selected)(r[i]);
    r
  }

  lemma SameElements<T>(r: seq<T>, s: seq<T>)
    requires multiset(r) == multiset(s)
    ensures forall x :: x in r <==> x in s
  {
    forall x ensures x in r <==> x in s {
      assert x in r <==> x in multiset(r);
      assert x in s <==> x in multiset(s);
    }
  }

  /** The empty text occurs in every text. */
  lemma ContainsEmpty(s: string)
    ensures Contains(s, [])
  {
    assert OccursAt(s, [], 0);
  }

  /** An empty query with every category selected keeps every habit. */
  lemma NoFilterKeepsAll(habits: seq<Habit>)
    ensures multiset(FilteredHabits(habits, "", AllCategories)) == multiset(habits)
  {
    forall i | 0 <= i < |habits| ensures Matches("", AllCategories)(habits[i]) {
      ContainsEmpty(ToLower(habits[i].name));
    }
    FilterAll(habits, Matches("", AllCategories));
  }

  /** The search ignores the case of the query's ASCII letters. */
  lemma SearchIgnoresCase(habits: seq<Habit>, query: string, selected: Selection)
    ensures FilteredHabits(habits, ToUpper(query), selected) == FilteredHabits(habits, query, selected)
  {
    ToLowerOfUpper(query);
    FilterEquiv(habits, Matches(ToUpper(query), selected), Matches(query, selected));
  }

  function IsInactive(h: Habit): bool { !h.active }

  /**
   * activeHabits and inactiveHabits: the two filters, each in list order.
   * Since the sort puts every active habit first, the list is the active
   * ones followed by the inactive ones.
   */
  lemma SplitIsPartition(habits: seq<Habit>, query: string, selected: Selection)
    ensures var r := FilteredHabits(habits, query, selected);
      r == Filter(r, IsActive) + Filter(r, IsInactive)
  {
    ActiveFirstSplits(FilteredHabits(habits, query, selected));
  }

  lemma ActiveFirstSplits(r: seq<Habit>)
    requires forall i, j :: 0 <= i < j < |r| ==> r[i].active || !r[j].active
    ensures r == Filter(r, IsActive) + Filter(r, IsInactive)
  {
    OrderedIsPFirst(r, IsActive);
    SplitWhereFirst(r, IsActive);
    FilterEquiv(r, Not(IsActive), IsInactive);
  }

  function Not<T>(p: T -> bool): T -> bool
  {
    x => !p(x)
  }

  /** The `p` elements form a prefix of the list. */
  predicate PFirst<T>(r: seq<T>, p: T -> bool)
  {
    r == [] || if p(r[0]) then PFirst(r[1..], p) else forall i :: 0 <= i < |r| ==> !p(r[i])
  }

  lemma {:induction false} OrderedIsPFirst<T>(r: seq<T>, p: T -> bool)
    requires forall i, j :: 0 <= i < j < |r| ==> p(r[i]) || !p(r[j])
    ensures PFirst(r, p)
  {
    if r != [] && p(r[0]) {
      var r' := r[1..];
      assert forall i, j :: 0 <= i < j < |r'| ==> p(r'[i]) || !p(r'[j]) by {
        forall i, j | 0 <= i < j < |r'| ensures p(r'[i]) || !p(r'[j]) {
          assert r'[i] == r[i + 1] && r'[j] == r[j + 1];
        }
      }
      OrderedIsPFirst(r', p);
    }
  }

  lemma ConcatAssoc<T>(x: seq<T>, a: seq<T>, b: seq<T>)
    ensures x + (a + b) == (x + a) + b
  {
  }

  /** A list whose `p` elements all come first is its `p` elements followed by the rest. */
  lemma {:induction false} SplitWhereFirst<T>(r: seq<T>, p: T -> bool)
    requires PFirst(r, p)
    ensures r == Filter(r, p) + Filter(r, Not(p))
  {
    if r != [] {
      var x, r' := r[0], r[1..];
      assert r == [x] + r';
      if p(x) {
        SplitWhereFirst(r', p);
        var a, b := Filter(r', p), Filter(r', Not(p));
        FilterCons(x, r', p);
        FilterCons(x, r', Not(p));
        assert !Not(p)(x);
        assert Filter(r, p) == [x] + a;
        assert Filter(r, Not(p)) == b;
        ConcatAssoc([x], a, b);
      } else {
        FilterNone(r, p);
        FilterAll(r, Not(p));
        assert Filter(r, p) + Filter(r, Not(p)) == [] + r;
      }
    }
  }

  function InCategory(c: Category): Habit -> bool
  {
    (h: Habit) => h.category == Some(c)
  }

  /** The count on a category button: the habits of that category. */
  function CategoryCount(habits: seq<Habit>, c: Category): nat
  {
    |Filter(habits, InCategory(c))|
  }

  /** A habit has at most one category: the five button counts add up to at most the "All" count. */
  lemma {:induction false} CategoryCountsBounded(habits: seq<Habit>)
    ensures CategoryCount(habits, Health) + CategoryCount(habits, Productivity)
          + CategoryCount(habits, Mindfulness) + CategoryCount(habits, Social)
          + CategoryCount(habits, Other) <= |habits|
  {
    if habits != [] {
      CategoryCountsBounded(habits[..|habits| - 1]);
    }
  }
}
