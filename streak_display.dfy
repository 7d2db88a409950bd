/**
 * components/habits/StreakDisplay.tsx: the colour bucket of a streak, the
 * number of flames, the count and "day(s) streak" labels, and whether the
 * celebration overlay renders. Sizes, class names and animation are left
 * to the view.
 */
module StreakDisplay {
  import opened Wrappers

  /** The four keys of STREAK_COLORS. */
  datatype StreakColor = Low | Medium | High | Extreme

  /** Position of a bucket from the coolest to the hottest. */
  function Heat(c: StreakColor): nat
  {
    match c
    case Low => 0
    case Medium => 1
    case High => 2
    case Extreme => 3
  }

  /** `colorClass`: the first threshold the streak falls under. */
  function ColorOf(streak: int): (c: StreakColor)
    ensures c == Low <==> streak < 7
    ensures c == Medium <==> 7 <= streak < 21
    ensures c == High <==> 21 <= streak < 50
    ensures c == Extreme <==> 50 <= streak
  {
    if streak == 0 then Low
    else if streak < 7 then Low
    else if streak < 21 then Medium
    else if streak < 50 then High
    else Extreme
  }

  /** A longer streak never gets a cooler colour. */
  lemma ColorMonotone(s: int, t: int)
    requires s <= t
    ensures Heat(ColorOf(s)) <= Heat(ColorOf(t))
  {
  }

  /** `Math.ceil(streak / 10)` on an integer streak. */
  function CeilTenth(streak: int): (c: int)
    ensures 10 * (c - 1) < streak <= 10 * c
  {
    if streak % 10 == 0 then streak / 10 else streak / 10 + 1
  }

  /** `flameCount`: `Math.min(Math.ceil(streak / 10), 3)`. */
  function FlameCount(streak: int): (n: int)
    ensures n <= 3
    ensures n < 3 ==> 10 * (n - 1) < streak <= 10 * n
    ensures n == 3 <==> streak > 20
  {
    var c := CeilTenth(streak);
    if c <= 3 then c else 3
  }

  /** For a streak of zero or more: between none and three flames, none exactly for zero. */
  lemma FlameCountBounds(streak: int)
    requires streak >= 0
    ensures 0 <= FlameCount(streak) <= 3
    ensures FlameCount(streak) == 0 <==> streak == 0
  {
  }

  /** What the component renders for a streak. */
  datatype StreakView = StreakView(
    flames: nat,
    color: StreakColor,
    count: Option<int>,
    caption: Option<string>)

  /** The text after the count: "day streak" for exactly one, "days streak" otherwise. */
  function Label(streak: int): (s: string)
    ensures s == "day streak" <==> streak == 1
    ensures s == "days streak" <==> streak != 1
  {
    "day" + (if streak != 1 then "s" else "") + " streak"
  }

  /**
   * `StreakDisplay`: None when `Array(flameCount)` throws for a negative
   * length, else the flames, the colour, the count (shown when positive)
   * and the label (shown when asked for).
   */
  function Render(streak: int, showLabel: bool): (r: Option<StreakView>)
    ensures r.None? <==> streak <= -10
    ensures r.Some? ==> r.value.flames == FlameCount(streak) && r.value.color == ColorOf(streak)
    ensures r.Some? ==> (r.value.count.Some? <==> streak > 0)
    ensures r.Some? && r.value.count.Some? ==> r.value.count.value == streak
    ensures r.Some? ==> (r.value.caption.Some? <==> showLabel)
    ensures r.Some? && showLabel ==> r.value.caption.value == Label(streak)
  {
    var flameCount := FlameCount(streak);
    if flameCount < 0 then None
    else
      Some(StreakView(
        flameCount,
        ColorOf(streak),
        if streak > 0 then Some(streak) else None,
        if showLabel then Some(Label(streak)) else None))
  }

  /** The count appears exactly when at least one flame does. */
  lemma CountIffFlames(streak: int, showLabel: bool)
    requires Render(streak, showLabel).Some?
    ensures Render(streak, showLabel).value.count.Some? <==> Render(streak, showLabel).value.flames > 0
  {
  }

  /** `StreakCelebration`: nothing below seven, else the "N Day Streak!" heading's number. */
  function Celebration(streak: int): (r: Option<int>)
    ensures r.None? <==> streak < 7
    ensures r.Some? ==> r.value == streak
  {
    if streak < 7 then None else Some(streak)
  }

  /**
   * The celebration renders exactly when the flames leave the low colour,
   * and then at least one flame burns.
   */
  lemma CelebrationIffWarm(streak: int)
    ensures Celebration(streak).Some? <==> ColorOf(streak) != Low
    ensures Celebration(streak).Some? ==> FlameCount(streak) >= 1
  {
  }
}
