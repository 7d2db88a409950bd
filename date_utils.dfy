/**
 * Calendar arithmetic of lib/utils/dateUtils.ts. A calendar date is a day
 * number (day 0 is 1970-01-01, a Thursday); an instant is a count of
 * milliseconds since 1970-01-01T00:00Z. Parsing a date string is not
 * modelled: callers pass its outcome, `None` standing for a string the date
 * library rejects. "Today" and "now" are parameters instead of clock reads.
 */
module DateUtils {
  import opened Wrappers

  type Day = int

  const MS_PER_MINUTE: int := 60000
  const MS_PER_HOUR: int := 3600000
  const MS_PER_DAY: int := 86400000

  function PrevDay(d: Day): Day { d - 1 }

  function NextDay(d: Day): Day { d + 1 }

  /** getDateDiff: signed days from `b` to `a`, or 0 on the error path. */
  function DateDiff(a: Option<Day>, b: Option<Day>): (r: int)
    ensures a == b ==> r == 0
    ensures r > 0 <==> a.Some? && b.Some? && a.value > b.value
    ensures r < 0 <==> a.Some? && b.Some? && a.value < b.value
  {
    if a.Some? && b.Some? then a.value - b.value else 0
  }

  /** Swapping the arguments negates the difference. */
  lemma DateDiffAntisymmetric(a: Option<Day>, b: Option<Day>)
    ensures DateDiff(a, b) == -DateDiff(b, a)
  {
  }

  /**
   * getDateDiff counts days: the next day is one day on, and the differences
   * along a chain of dates add up. Together these make it `a - b`.
   */
  lemma DateDiffCounts(x: Day, y: Day, z: Day)
    ensures DateDiff(Some(NextDay(x)), Some(x)) == 1
    ensures DateDiff(Some(x), Some(z)) == DateDiff(Some(x), Some(y)) + DateDiff(Some(y), Some(z))
  {
  }

  /**
   * differenceInDays on the parsed dates. An unparseable string parses to an
   * Invalid Date, for which the difference is NaN (`None`) rather than a throw.
   */
  function DayDifference(a: Option<Day>, b: Option<Day>): Option<int>
  {
    if a.Some? && b.Some? then Some(a.value - b.value) else None
  }

  /** isSameDay: the difference is exactly 0; NaN === 0 is false, so an unparseable date is never the same day. */
  function IsSameDay(a: Option<Day>, b: Option<Day>): (r: bool)
    ensures r <==> a.Some? && b.Some? && a.value == b.value
  {
    DayDifference(a, b) == Some(0)
  }

  /** Two parsed dates are the same day exactly when getDateDiff finds no difference. */
  lemma SameDayIffNoDifference(a: Option<Day>, b: Option<Day>)
    ensures IsSameDay(a, b) <==> a.Some? && b.Some? && DateDiff(a, b) == 0
    ensures IsSameDay(a, b) == IsSameDay(b, a)
  {
  }

  /** isToday. */
  function IsToday(d: Option<Day>, today: Day): (r: bool)
    ensures r <==> d.Some? && d.value == today
  {
    IsSameDay(d, Some(today))
  }

  /** isPast: strictly before today; false for today, the future and an unparseable date. */
  function IsPast(d: Option<Day>, today: Day): (r: bool)
    ensures r <==> d.Some? && d.value < today
  {
    DateDiff(Some(today), d) > 0
  }

  /** The window that getLastNDays(n) produces: max(n, 0) consecutive days ending today. */
  function LastNDays(n: int, today: Day): (r: seq<Day>)
    ensures |r| == if n > 0 then n else 0
    ensures forall k :: 0 < k < |r| ==> r[k] == r[k - 1] + 1
    ensures |r| > 0 ==> r[|r| - 1] == today
    ensures forall d :: d in r <==> today - n < d <= today
  {
    var len := if n > 0 then n else 0;
    var r := seq(len, k => today - (n - 1) + k);
    forall d | today - n < d <= today ensures d in r {
      assert r[d - (today - n + 1)] == d;
    }
    assert forall k :: 0 <= k < len ==> today - n < r[k] <= today;
    r
  }

  /** getLastNDays: pushes today - i for i = n - 1 down to 0. */
  method GetLastNDays(n: int, today: Day) returns (days: seq<Day>)
    ensures days == LastNDays(n, today)
  {
    days := [];
    var i := n - 1;
    while i >= 0
      invariant i <= n - 1
      invariant n > 0 ==> i >= -1
      invariant n <= 0 ==> days == []
      invariant |days| == (n - 1) - i
      invariant forall k :: 0 <= k < |days| ==> days[k] == today - (n - 1) + k
    {
      days := days + [today - i];
      i := i - 1;
    }
    assert |days| == |LastNDays(n, today)|;
  }

  /** Day of the week with Monday = 0 ... Sunday = 6 (day 0 was a Thursday). */
  function Weekday(d: Day): (w: int)
    ensures 0 <= w < 7
  {
    (d + 3) % 7
  }

  /**
   * getWeekDates. `date` is `None` when no string (or an empty one) is
   * given, then today's week is listed; `Some(None)` is a string that fails
   * to parse, for which formatting the invalid date throws out of the
   * function (`None` result).
   */
  method GetWeekDates(date: Option<Option<Day>>, today: Day) returns (r: Option<seq<Day>>)
    ensures r.None? <==> date == Some(None)
    ensures r.Some? ==> |r.value| == 7 && Weekday(r.value[0]) == 0
    ensures r.Some? ==> forall k :: 0 < k < 7 ==> r.value[k] == r.value[k - 1] + 1
    ensures r.Some? ==> (if date.None? then today else date.value.value) in r.value
  {
    if date == Some(None) {
      return None;
    }
    var base := if date.None? then today else date.value.value;
    var start := base - Weekday(base);
    var dates := [];
    for i := 0 to 7
      invariant |dates| == i
      invariant forall k :: 0 <= k < i ==> dates[k] == start + k
    {
      dates := dates + [start + i];
    }
    assert dates[base - start] == base;
    return Some(dates);
  }

  /** Whole days from one instant to another, truncated toward zero (differenceInDays). */
  function DaysBetween(laterMs: int, earlierMs: int): (r: int)
    ensures var x := laterMs - earlierMs;
      (x >= 0 ==> 0 <= r && r * MS_PER_DAY <= x < (r + 1) * MS_PER_DAY) &&
      (x < 0 ==> r <= 0 && (r - 1) * MS_PER_DAY < x <= r * MS_PER_DAY)
  {
    var x := laterMs - earlierMs;
    if x >= 0 then x / MS_PER_DAY else -((-x) / MS_PER_DAY)
  }

  /** What getRelativeTime renders. */
  datatype RelativeTime =
    | JustNow
    | MinutesAgo(minutes: int)
    | HoursAgo(hours: int)
    | DaysAgo(days: int)
    | Absolute(ms: int)   // formatDate of the parsed instant
    | Unchanged           // the input string itself

  /**
   * getRelativeTime: floored minutes, hours of those, days of those
   * (Dafny's `/` by a positive constant is the floor, as `Math.floor` is).
   */
  function GetRelativeTime(stamp: Option<int>, nowMs: int): (r: RelativeTime)
    ensures stamp.None? <==> r == Unchanged
    ensures stamp.Some? ==> var e := nowMs - stamp.value;
      && (r == JustNow <==> e < MS_PER_MINUTE)
      && (r.MinutesAgo? <==> MS_PER_MINUTE <= e < MS_PER_HOUR)
      && (r.MinutesAgo? ==> 1 <= r.minutes < 60 && r.minutes * MS_PER_MINUTE <= e < (r.minutes + 1) * MS_PER_MINUTE)
      && (r.HoursAgo? <==> MS_PER_HOUR <= e < MS_PER_DAY)
      && (r.HoursAgo? ==> 1 <= r.hours < 24 && r.hours * MS_PER_HOUR <= e < (r.hours + 1) * MS_PER_HOUR)
      && (r.DaysAgo? <==> MS_PER_DAY <= e < 7 * MS_PER_DAY)
      && (r.DaysAgo? ==> 1 <= r.days < 7 && r.days * MS_PER_DAY <= e < (r.days + 1) * MS_PER_DAY)
      && (r.Absolute? <==> 7 * MS_PER_DAY <= e)
      && (r.Absolute? ==> r.ms == stamp.value)
  {
    match stamp
    case None => Unchanged
    case Some(t) =>
      var diffMs := nowMs - t;
      var diffMins := diffMs / MS_PER_MINUTE;
      var diffHours := diffMins / 60;
      var diffDays := diffHours / 24;
      assert diffMins / 60 == diffMs / MS_PER_HOUR;
      assert diffHours / 24 == diffMs / MS_PER_DAY;
      if diffMins < 1 then JustNow
      else if diffMins < 60 then MinutesAgo(diffMins)
      else if diffHours < 24 then HoursAgo(diffHours)
      else if diffDays < 7 then DaysAgo(diffDays)
      else Absolute(t)
  }

  /**
   * formatDate / formatDayName: the library's rendering of a parsed date in
   * the given pattern, or the input string when the date does not parse.
   */
  function FormatDate(dateStr: string, parsed: Option<Day>, pattern: string,
                      render: (Day, string) -> string): (r: string)
    ensures parsed.None? ==> r == dateStr
    ensures parsed.Some? ==> r == render(parsed.value, pattern)
  {
    match parsed
    case None => dateStr
    case Some(d) => render(d, pattern)
  }

  function FormatDayName(dateStr: string, parsed: Option<Day>, render: (Day, string) -> string): (r: string)
    ensures parsed.None? ==> r == dateStr
  {
    FormatDate(dateStr, parsed, "EEEE", render)
  }
}
