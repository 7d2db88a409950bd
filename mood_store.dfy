/**
 * lib/stores/moodStore.ts: the zustand store holding the mood history, its
 * queries, and the distribution and best-day selectors. The store object is
 * a class whose one field is the list every action replaces; the clock and
 * the random id suffix are parameters.
 */
module MoodStore {
  import opened Wrappers
  import opened Seqs
  import opened Sorting
  import opened Arith
  import opened DateUtils
  import opened MoodTypes

  /** `Partial<MoodEntry>`: `Some(v)` for every key the update object carries. */
  datatype MoodPatch = MoodPatch(
    id: Option<string>,
    date: Option<Day>,
    time: Option<int>,
    mood: Option<Mood>,
    note: Option<Option<string>>,
    activities: Option<Option<seq<string>>>)

  /** `{ ...entry, ...updates }`. */
  function ApplyPatch(e: MoodEntry, p: MoodPatch): MoodEntry
  {
    MoodEntry(Or(p.id, e.id), Or(p.date, e.date), Or(p.time, e.time), Or(p.mood, e.mood),
              Or(p.note, e.note), Or(p.activities, e.activities))
  }

  /** updateMood's list: every entry carrying `id` is patched, the others are kept, in order. */
  function UpdateIn(history: seq<MoodEntry>, id: string, p: MoodPatch): (r: seq<MoodEntry>)
    ensures |r| == |history|
    ensures forall i :: 0 <= i < |r| && history[i].id != id ==> r[i] == history[i]
    ensures forall i :: 0 <= i < |r| && history[i].id == id ==> r[i] == ApplyPatch(history[i], p)
  {
    seq(|history|, i requires 0 <= i < |history| =>
      if history[i].id == id then ApplyPatch(history[i], p) else history[i])
  }

  function HasId(id: string): MoodEntry -> bool
  {
    (e: MoodEntry) => e.id == id
  }

  function HasOtherId(id: string): MoodEntry -> bool
  {
    (e: MoodEntry) => e.id != id
  }

  /** deleteMood's list: the entries whose id differs, in their order. */
  function DeleteIn(history: seq<MoodEntry>, id: string): (r: seq<MoodEntry>)
    ensures forall i :: 0 <= i < |r| ==> r[i] in history && r[i].id != id
    ensures forall i {:trigger history[i] in r} :: 0 <= i < |history| && history[i].id != id ==> history[i] in r
    ensures PicksAt(r, history, Kept(history, HasOtherId(id)))
  {
    FilterPicks(history, HasOtherId(id));
    Filter(history, HasOtherId(id))
  }

  /** Deleting an id no entry carries changes nothing. */
  lemma DeleteAbsent(history: seq<MoodEntry>, id: string)
    requires forall i :: 0 <= i < |history| ==> history[i].id != id
    ensures DeleteIn(history, id) == history
  {
    FilterAll(history, HasOtherId(id));
  }

  /** getMoodById (`find`): the first entry carrying `id`, None when there is none. */
  function FindById(history: seq<MoodEntry>, id: string): (r: Option<MoodEntry>)
    ensures r.None? <==> forall i :: 0 <= i < |history| ==> history[i].id != id
    ensures r.Some? ==> r.value in history && r.value.id == id
    ensures r.Some? ==> exists i :: 0 <= i < |history| && history[i] == r.value &&
                          forall k :: 0 <= k < i ==> history[k].id != id
  {
    var r := Find(history, HasId(id));
    var i := FindIndex(history, HasId(id));
    assert r.Some? ==> HasId(id)(history[i]);
    assert r.Some? ==> forall k :: 0 <= k < i ==> !HasId(id)(history[k]);
    r
  }

  /** After deleteMood nothing is found under the id. */
  lemma FindDeleted(history: seq<MoodEntry>, id: string)
    ensures FindById(DeleteIn(history, id), id) == None
  {
  }

  function OnDate(d: Day): MoodEntry -> bool
  {
    (e: MoodEntry) => e.date == d
  }

  /** The comparator `(a, b) => time(b) - time(a)`: later entries first. */
  function Later(a: MoodEntry, b: MoodEntry): bool { a.time > b.time }

  lemma LaterIsStrictWeakOrder()
    ensures StrictWeakOrder(Later)
  {
  }

  /** getTodaysMood: the head of today's entries sorted latest first. */
  function TodaysMood(history: seq<MoodEntry>, today: Day): (r: Option<MoodEntry>)
    ensures r.None? <==> forall i :: 0 <= i < |history| ==> history[i].date != today
    ensures r.Some? ==> r.value in history && r.value.date == today
  {
    var todays := Filter(history, OnDate(today));
    SortPermutes(todays, Later);
    var r := At(Sort(todays, Later), 0);
    assert r.Some? ==> r.value in multiset(todays);
    FilterEmpty(history, OnDate(today));
    r
  }

  /**
   * Today's mood is the latest-logged entry of today; among entries logged
   * at the same instant, the one earliest in the history (the sort is stable).
   */
  lemma TodaysMoodIsLatest(history: seq<MoodEntry>, today: Day) returns (k: nat)
    requires TodaysMood(history, today).Some?
    ensures k < |Filter(history, OnDate(today))|
    ensures Filter(history, OnDate(today))[k] == TodaysMood(history, today).value
    ensures forall j :: 0 <= j < |Filter(history, OnDate(today))| ==>
      Filter(history, OnDate(today))[j].time <= TodaysMood(history, today).value.time
    ensures forall j :: 0 <= j < k ==>
      Filter(history, OnDate(today))[j].time < TodaysMood(history, today).value.time
  {
    var todays := Filter(history, OnDate(today));
    LaterIsStrictWeakOrder();
    k := SortHead(todays, Later);
    forall j | 0 <= j < |todays| ensures todays[j].time <= todays[k].time {
      assert !Later(todays[j], todays[k]);
    }
    forall j | 0 <= j < k ensures todays[j].time < todays[k].time {
      assert Later(todays[k], todays[j]);
    }
  }

  /** No entry of today in the whole history was logged after today's mood. */
  lemma TodaysMoodIsLatestOfDay(history: seq<MoodEntry>, today: Day)
    ensures TodaysMood(history, today).Some? ==>
      forall i :: 0 <= i < |history| && history[i].date == today ==>
        history[i].time <= TodaysMood(history, today).value.time
  {
    if TodaysMood(history, today).Some? {
      var todays := Filter(history, OnDate(today));
      var _ := TodaysMoodIsLatest(history, today);
      forall i | 0 <= i < |history| && history[i].date == today
        ensures history[i].time <= TodaysMood(history, today).value.time
      {
        assert history[i] in todays;
        var j :| 0 <= j < |todays| && todays[j] == history[i];
      }
    }
  }

  /** getMoodsForDate. */
  function MoodsForDate(history: seq<MoodEntry>, date: Day): (r: seq<MoodEntry>)
    ensures forall i :: 0 <= i < |r| ==> r[i] in history && r[i].date == date
    ensures forall i {:trigger history[i] in r} :: 0 <= i < |history| && history[i].date == date ==> history[i] in r
    ensures PicksAt(r, history, Kept(history, OnDate(date)))
  {
    FilterPicks(history, OnDate(date));
    Filter(history, OnDate(date))
  }

  function InRange(startDate: Day, endDate: Day): MoodEntry -> bool
  {
    (e: MoodEntry) => startDate <= e.date <= endDate
  }

  /** getMoodsForDateRange: entries dated within [startDate, endDate], both ends included. */
  function MoodsForDateRange(history: seq<MoodEntry>, startDate: Day, endDate: Day): (r: seq<MoodEntry>)
    ensures forall i :: 0 <= i < |r| ==> r[i] in history && startDate <= r[i].date <= endDate
    ensures forall i {:trigger history[i] in r} :: 0 <= i < |history| && startDate <= history[i].date <= endDate ==> history[i] in r
    ensures startDate > endDate ==> r == []
    ensures PicksAt(r, history, Kept(history, InRange(startDate, endDate)))
  {
    FilterPicks(history, InRange(startDate, endDate));
    if startDate > endDate then
      FilterNone(history, InRange(startDate, endDate));
      Filter(history, InRange(startDate, endDate))
    else
      Filter(history, InRange(startDate, endDate))
  }

  function DatedIn(days: seq<Day>): MoodEntry -> bool
  {
    (e: MoodEntry) => e.date in days
  }

  /** The entries dated within the last `days` days, today included. */
  function Within(days: int, today: Day): MoodEntry -> bool
  {
    (e: MoodEntry) => today - days < e.date <= today
  }

  /** getRecentMoods: the entries dated within the last `days` days, today included, in history order. */
  function RecentMoods(history: seq<MoodEntry>, days: int, today: Day): (r: seq<MoodEntry>)
    ensures forall i :: 0 <= i < |r| ==> r[i] in history && today - days < r[i].date <= today
    ensures forall i {:trigger history[i] in r} :: 0 <= i < |history| && today - days < history[i].date <= today ==> history[i] in r
    ensures days <= 0 ==> r == []
    ensures PicksAt(r, history, Kept(history, Within(days, today)))
  {
    var recentDates := LastNDays(days, today);
    assert forall e :: DatedIn(recentDates)(e) == Within(days, today)(e);
    FilterEquiv(history, DatedIn(recentDates), Within(days, today));
    FilterPicks(history, Within(days, today));
    var r := Filter(history, DatedIn(recentDates));
    assert forall i :: 0 <= i < |r| ==> DatedIn(recentDates)(r[i]);
    if days <= 0 then
      FilterNone(history, DatedIn(recentDates));
      r
    else
      r
  }

  /** getAverageMoodScore on the recent entries: 0 for none, else the mean rounded to one decimal. */
  function AverageMoodScore(recent: seq<MoodEntry>): (r: real)
    ensures recent == [] ==> r == 0.0
    ensures recent != [] ==> 1.0 <= r <= 5.0
    ensures recent != [] ==> MeanScore(recent) - 0.05 < r <= MeanScore(recent) + 0.05
    ensures (r * 10.0).Floor as real == r * 10.0
  {
    if |recent| == 0 then 0.0
    else
      RoundTenthWithin(MeanScore(recent), 1, 5);
      RoundTenth(MeanScore(recent))
  }

  datatype Trend = Improving | Declining | Stable

  /**
   * getMoodTrend on the recent entries: under three entries it is stable;
   * otherwise the mean of the second half (the longer one for an odd count)
   * is compared with the mean of the first half, with a margin of 0.3.
   */
  function MoodTrend(recent: seq<MoodEntry>): (t: Trend)
    ensures |recent| < 3 ==> t == Stable
    ensures t == Improving ==>
      MeanScore(recent[|recent| / 2..]) > MeanScore(recent[..|recent| / 2]) + 0.3
    ensures t == Declining ==>
      MeanScore(recent[|recent| / 2..]) < MeanScore(recent[..|recent| / 2]) - 0.3
    ensures |recent| >= 3 && t == Stable ==>
      MeanScore(recent[..|recent| / 2]) - 0.3 <= MeanScore(recent[|recent| / 2..])
                                              <= MeanScore(recent[..|recent| / 2]) + 0.3
  {
    if |recent| < 3 then Stable
    else
      var half := |recent| / 2;
      var firstAvg := MeanScore(recent[..half]);
      var secondAvg := MeanScore(recent[half..]);
      if secondAvg > firstAvg + 0.3 then Improving
      else if secondAvg < firstAvg - 0.3 then Declining
      else Stable
  }

  /** The mean of entries that all carry the same mood is that mood's score. */
  lemma MeanOfConstant(s: seq<MoodEntry>, m: Mood)
    requires |s| > 0 && forall i :: 0 <= i < |s| ==> s[i].mood == m
    ensures MeanScore(s) == Score(m) as real
  {
    SumBounds(s, EntryScore, Score(m), Score(m));
    assert Sum(s, EntryScore) == Score(m) * |s|;
  }

  /** A history of one repeated mood has a stable trend. */
  lemma ConstantMoodIsStable(recent: seq<MoodEntry>, m: Mood)
    requires forall i :: 0 <= i < |recent| ==> recent[i].mood == m
    ensures MoodTrend(recent) == Stable
  {
    if |recent| >= 3 {
      var half := |recent| / 2;
      MeanOfConstant(recent[..half], m);
      MeanOfConstant(recent[half..], m);
    }
  }

  /** The five-key record of selectMoodDistribution. */
  function Distribution(s: seq<MoodEntry>): (r: map<Mood, nat>)
    ensures forall m :: m in MOODS ==> m in r && r[m] == CountMood(s, m)
    ensures r[Terrible] + r[Bad] + r[Neutral] + r[Good] + r[Excellent] == |s|
  {
    CountMoodsSum(s);
    map m | m in MOODS :: CountMood(s, m)
  }

  /** A five-key record holding every mood's count is the distribution. */
  lemma DistributionIs(d: map<Mood, nat>, s: seq<MoodEntry>)
    requires d.Keys == {Terrible, Bad, Neutral, Good, Excellent}
    requires forall m :: m in d ==> d[m] == CountMood(s, m)
    ensures d == Distribution(s)
  {
    var r := Distribution(s);
    assert r.Keys == d.Keys by {
      forall m ensures m in r <==> m in d {
        assert m in d <==> m in MOODS;
      }
    }
  }

  /** The record the counting `forEach` holds after the entries of `s`: one increment per entry. */
  function Counted(s: seq<MoodEntry>): (d: map<Mood, nat>)
    ensures forall m :: m in d
  {
    if s == [] then
      var zero := map[Terrible := 0, Bad := 0, Neutral := 0, Good := 0, Excellent := 0];
      assert forall m :: m in zero by {
        forall m: Mood ensures m in zero { MoodIsKey(m); }
      }
      zero
    else
      var d := Counted(s[..|s| - 1]);
      var e := s[|s| - 1];
      d[e.mood := d[e.mood] + 1]
  }

  /** One more entry: one more increment. */
  lemma CountedStep(s: seq<MoodEntry>, e: MoodEntry)
    ensures Counted(s + [e]) == Counted(s)[e.mood := Counted(s)[e.mood] + 1]
  {
    var t := s + [e];
    assert t[..|t| - 1] == s;
    assert t[|t| - 1] == e;
  }

  /** After the entries of `s`, each mood's counter holds the number of entries with that mood. */
  lemma {:induction false} CountedCounts(s: seq<MoodEntry>)
    ensures forall m :: Counted(s)[m] == CountMood(s, m)
  {
    if s != [] {
      var s', e := s[..|s| - 1], s[|s| - 1];
      assert s == s' + [e];
      CountedCounts(s');
      CountedStep(s', e);
      forall m ensures Counted(s)[m] == CountMood(s, m) {
        CountMoodStep(s', e, m);
      }
    }
  }

  /** The increments add up to the distribution. */
  lemma CountedIsDistribution(s: seq<MoodEntry>)
    ensures Counted(s) == Distribution(s)
  {
    CountedCounts(s);
    var c, r := Counted(s), Distribution(s);
    forall m ensures m in r && r[m] == c[m] {
      MoodIsKey(m);
      assert m in MOODS;
    }
    assert c.Keys == r.Keys;
  }

  lemma {:induction false} CountMoodStep(s: seq<MoodEntry>, e: MoodEntry, m: Mood)
    ensures CountMood(s + [e], m) == CountMood(s, m) + (if e.mood == m then 1 else 0)
  {
    assert (s + [e])[..|s|] == s;
  }

  /** Entries dated `d` and the sum of their scores. */
  function DayCount(s: seq<MoodEntry>, d: Day): nat { |Filter(s, OnDate(d))| }

  function DaySum(s: seq<MoodEntry>, d: Day): int { Sum(Filter(s, OnDate(d)), EntryScore) }

  lemma {:induction false} DayStep(s: seq<MoodEntry>, e: MoodEntry, d: Day)
    ensures DayCount(s + [e], d) == DayCount(s, d) + (if e.date == d then 1 else 0)
    ensures DaySum(s + [e], d) == DaySum(s, d) + (if e.date == d then Score(e.mood) else 0)
  {
    assert (s + [e])[..|s|] == s;
    var f := Filter(s, OnDate(d));
    assert Filter(s + [e], OnDate(d)) == f + (if e.date == d then [e] else []);
    if e.date == d {
      assert (f + [e])[..|f|] == f;
      assert Sum(f + [e], EntryScore) == Sum(f, EntryScore) + Score(e.mood);
    } else {
      assert f + [] == f;
    }
  }

  /** A date that some entry carries has at least one entry. */
  lemma DayCountPositive(s: seq<MoodEntry>, i: nat)
    requires i < |s|
    ensures DayCount(s, s[i].date) > 0
  {
    assert OnDate(s[i].date)(s[i]);
    assert s[i] in Filter(s, OnDate(s[i].date));
  }

  /** The average of the day `d`, 0 for a day without entries. */
  function DayAverage(s: seq<MoodEntry>, d: Day): (r: real)
    ensures DayCount(s, d) > 0 ==> 1.0 <= r <= 5.0
  {
    var n := DayCount(s, d);
    if n == 0 then 0.0
    else
      SumBounds(Filter(s, OnDate(d)), EntryScore, 1, 5);
      MeanBounds(DaySum(s, d), n, 1, 5);
      DaySum(s, d) as real / n as real
  }

  /** The dates of the entries in order of first appearance: the key order of `dateScores`. */
  function FirstSeenDates(s: seq<MoodEntry>): seq<Day>
  {
    if s == [] then []
    else
      var prev := FirstSeenDates(s[..|s| - 1]);
      var d := s[|s| - 1].date;
      if d in prev then prev else prev + [d]
  }

  /** Each date that occurs is listed exactly once, and only those. */
  lemma {:induction false} FirstSeenDatesFacts(s: seq<MoodEntry>)
    ensures var r := FirstSeenDates(s);
      && (forall i, j :: 0 <= i < j < |r| ==> r[i] != r[j])
      && (forall i :: 0 <= i < |s| ==> s[i].date in r)
      && (forall k :: 0 <= k < |r| ==> exists i :: 0 <= i < |s| && s[i].date == r[k])
  {
    FirstSeenDistinct(s);
    FirstSeenCovers(s);
    FirstSeenOccur(s);
  }

  lemma {:induction false} FirstSeenDistinct(s: seq<MoodEntry>)
    ensures forall i, j :: 0 <= i < j < |FirstSeenDates(s)| ==> FirstSeenDates(s)[i] != FirstSeenDates(s)[j]
  {
    if s != [] {
      var prev, d := FirstSeenDates(s[..|s| - 1]), s[|s| - 1].date;
      FirstSeenDistinct(s[..|s| - 1]);
      if d !in prev {
        var r := prev + [d];
        assert forall j :: 0 <= j < |prev| ==> r[j] == prev[j] != d;
      }
    }
  }

  lemma {:induction false} FirstSeenCovers(s: seq<MoodEntry>)
    ensures forall i :: 0 <= i < |s| ==> s[i].date in FirstSeenDates(s)
  {
    if s != [] {
      var s' := s[..|s| - 1];
      FirstSeenCovers(s');
      assert forall i :: 0 <= i < |s'| ==> s'[i] == s[i];
    }
  }

  lemma {:induction false} FirstSeenOccur(s: seq<MoodEntry>)
    ensures forall k :: 0 <= k < |FirstSeenDates(s)| ==> exists i :: 0 <= i < |s| && s[i].date == FirstSeenDates(s)[k]
  {
    if s != [] {
      var s' := s[..|s| - 1];
      FirstSeenOccur(s');
      var prev, d := FirstSeenDates(s'), s[|s| - 1].date;
      var r := FirstSeenDates(s);
      assert r == if d in prev then prev else prev + [d];
      forall k | 0 <= k < |r|
        ensures exists i :: 0 <= i < |s| && s[i].date == r[k]
      {
        if k < |prev| {
          var i :| 0 <= i < |s'| && s'[i].date == prev[k];
          assert s[i] == s'[i];
        } else {
          assert s[|s| - 1].date == r[k];
        }
      }
    } else {
      assert FirstSeenDates(s) == [];
    }
  }

  /** The `dateScores` record the first forEach builds, as two maps: per date, the sum and the count. */
  function Tally(s: seq<MoodEntry>): (map<Day, int>, map<Day, nat>)
  {
    if s == [] then (map[], map[])
    else
      var prev := Tally(s[..|s| - 1]);
      var e := s[|s| - 1];
      var sum := if e.date in prev.0 then prev.0[e.date] else 0;
      var count := if e.date in prev.1 then prev.1[e.date] else 0;
      (prev.0[e.date := sum + Score(e.mood)], prev.1[e.date := count + 1])
  }

  /** The record holds, for each date that occurs, the sum and the number of its scores. */
  lemma {:induction false} TallyMeaning(s: seq<MoodEntry>)
    ensures forall d :: d in Tally(s).0 <==> d in FirstSeenDates(s)
    ensures forall d :: d in Tally(s).1 <==> d in FirstSeenDates(s)
    ensures forall d :: d in Tally(s).0 ==> Tally(s).0[d] == DaySum(s, d)
    ensures forall d :: d in Tally(s).1 ==> Tally(s).1[d] == DayCount(s, d)
  {
    if s != [] {
      var s', e := s[..|s| - 1], s[|s| - 1];
      assert s == s' + [e];
      TallyMeaning(s');
      FirstSeenCovers(s');
      forall d
        ensures (d in Tally(s).0 <==> d in FirstSeenDates(s)) && (d in Tally(s).1 <==> d in FirstSeenDates(s))
        ensures d in Tally(s).0 ==> Tally(s).0[d] == DaySum(s, d)
        ensures d in Tally(s).1 ==> Tally(s).1[d] == DayCount(s, d)
      {
        if d !in FirstSeenDates(s') {
          FilterNone(s', OnDate(d));
        }
        TallyAt(s', e, d);
      }
    }
  }

  /** One entry keeps the meaning of the record at one date. */
  lemma TallyAt(s: seq<MoodEntry>, e: MoodEntry, d: Day)
    requires d in Tally(s).0 <==> d in FirstSeenDates(s)
    requires d in Tally(s).1 <==> d in FirstSeenDates(s)
    requires d in Tally(s).0 ==> Tally(s).0[d] == DaySum(s, d)
    requires d in Tally(s).1 ==> Tally(s).1[d] == DayCount(s, d)
    requires d !in FirstSeenDates(s) ==> DayCount(s, d) == 0 && DaySum(s, d) == 0
    ensures d in Tally(s + [e]).0 <==> d in FirstSeenDates(s + [e])
    ensures d in Tally(s + [e]).1 <==> d in FirstSeenDates(s + [e])
    ensures d in Tally(s + [e]).0 ==> Tally(s + [e]).0[d] == DaySum(s + [e], d)
    ensures d in Tally(s + [e]).1 ==> Tally(s + [e]).1[d] == DayCount(s + [e], d)
  {
    TallyStep(s, e);
    FirstSeenStep(s, e);
    DayStep(s, e, d);
  }

  /** One entry of the first forEach, in the shape of moodStore.ts: create the date's record if missing, then add. */
  lemma TallyStep(s: seq<MoodEntry>, e: MoodEntry)
    ensures var sums := if e.date in Tally(s).0 then Tally(s).0 else Tally(s).0[e.date := 0];
      var counts := if e.date in Tally(s).1 then Tally(s).1 else Tally(s).1[e.date := 0];
      Tally(s + [e]) == (sums[e.date := sums[e.date] + Score(e.mood)], counts[e.date := counts[e.date] + 1])
  {
    assert (s + [e])[..|s|] == s;
    var (sums, counts) := Tally(s);
    var d, v := e.date, Score(e.mood);
    if d !in sums {
      assert sums[d := 0][d := 0 + v] == sums[d := 0 + v];
    }
    if d !in counts {
      assert counts[d := 0][d := 0 + 1] == counts[d := 0 + 1];
    }
  }

  lemma FirstSeenStep(s: seq<MoodEntry>, e: MoodEntry)
    ensures FirstSeenDates(s + [e])
         == if e.date in FirstSeenDates(s) then FirstSeenDates(s) else FirstSeenDates(s) + [e.date]
  {
    assert (s + [e])[..|s|] == s;
  }

  lemma TallyKeys(s: seq<MoodEntry>, d: Day)
    ensures d in Tally(s).0 <==> d in FirstSeenDates(s)
    ensures d in Tally(s).1 <==> d in FirstSeenDates(s)
  {
    TallyMeaning(s);
  }

  /**
   * The second forEach of selectBestDay over `dates`: a date replaces the
   * best one only with a STRICTLY larger average, starting from 0.
   */
  function Best(dates: seq<Day>, avg: Day -> real): (r: (Option<Day>, real))
    ensures r.1 >= 0.0
    ensures forall i :: 0 <= i < |dates| ==> avg(dates[i]) <= r.1
    ensures r.0.None? ==> r.1 == 0.0
    ensures r.0.Some? ==>
      exists k :: 0 <= k < |dates| && dates[k] == r.0.value && avg(dates[k]) == r.1 &&
                  forall i :: 0 <= i < k ==> avg(dates[i]) < r.1
  {
    if dates == [] then (None, 0.0)
    else
      var prev := Best(dates[..|dates| - 1], avg);
      var d := dates[|dates| - 1];
      assert forall i :: 0 <= i < |dates| - 1 ==> dates[..|dates| - 1][i] == dates[i];
      if avg(d) > prev.1 then (Some(d), avg(d)) else prev
  }

  lemma BestStep(dates: seq<Day>, j: nat, avg: Day -> real)
    requires j < |dates|
    ensures Best(dates[..j + 1], avg)
         == if avg(dates[j]) > Best(dates[..j], avg).1 then (Some(dates[j]), avg(dates[j]))
            else Best(dates[..j], avg)
  {
    assert dates[..j + 1][..j] == dates[..j];
  }

  /** For a listed date, the record's sum over its count is the day's average. */
  lemma AverageFromTally(s: seq<MoodEntry>, d: Day)
    requires d in FirstSeenDates(s)
    ensures d in Tally(s).0 && d in Tally(s).1 && Tally(s).1[d] > 0
    ensures Tally(s).0[d] as real / Tally(s).1[d] as real == DayAverage(s, d)
  {
    TallyMeaning(s);
    FirstSeenDatesFacts(s);
    var k :| 0 <= k < |FirstSeenDates(s)| && FirstSeenDates(s)[k] == d;
    var i :| 0 <= i < |s| && s[i].date == d;
    DayCountPositive(s, i);
  }

  function AverageOf(s: seq<MoodEntry>): Day -> real
  {
    d => DayAverage(s, d)
  }

  /**
   * selectBestDay: the date with the highest average score, the first one
   * in order of appearance among ties; None (`''`) exactly for an empty history.
   */
  function BestDay(s: seq<MoodEntry>): (r: Option<Day>)
    ensures r.None? <==> s == []
    ensures r.Some? ==> exists i :: 0 <= i < |s| && s[i].date == r.value
    ensures r.Some? ==> forall i :: 0 <= i < |s| ==> DayAverage(s, s[i].date) <= DayAverage(s, r.value)
    ensures r.Some? ==> forall i :: 0 <= i < |s| && DayAverage(s, s[i].date) == DayAverage(s, r.value) ==>
      exists j :: 0 <= j <= i && s[j].date == r.value
  {
    BestOfDates(s);
    BestDayIsFirst(s);
    Best(FirstSeenDates(s), AverageOf(s)).0
  }

  /** The key order of a prefix of the history is a prefix of the key order. */
  lemma {:induction false} FirstSeenPrefix(s: seq<MoodEntry>, n: nat)
    requires n <= |s|
    ensures FirstSeenDates(s[..n]) <= FirstSeenDates(s)
    decreases |s|
  {
    if n < |s| {
      var s' := s[..|s| - 1];
      assert s'[..n] == s[..n];
      FirstSeenPrefix(s', n);
    } else {
      assert s[..n] == s;
    }
  }

  /** A date listed before the date of entry i is carried by an entry at or before i. */
  lemma SeenNoLater(s: seq<MoodEntry>, i: nat, k: nat, m: nat)
    requires i < |s| && k <= m < |FirstSeenDates(s)| && FirstSeenDates(s)[m] == s[i].date
    ensures exists j :: 0 <= j <= i && s[j].date == FirstSeenDates(s)[k]
  {
    var pre := s[..i + 1];
    var dates, p := FirstSeenDates(s), FirstSeenDates(pre);
    FirstSeenPrefix(s, i + 1);
    FirstSeenDatesFacts(pre);
    FirstSeenDatesFacts(s);
    assert pre[i] == s[i];
    var m' :| 0 <= m' < |p| && p[m'] == s[i].date;
    assert dates[m'] == dates[m];
    assert p[k] == dates[k];
    var j :| 0 <= j < |pre| && pre[j].date == p[k];
    assert s[j].date == dates[k];
  }

  /**
   * Ties go to the date seen first: any entry whose date has the best
   * average is preceded (or matched) by an entry of the best day.
   */
  lemma BestDayIsFirst(s: seq<MoodEntry>)
    ensures var b := Best(FirstSeenDates(s), AverageOf(s)).0;
      b.Some? ==> forall i :: 0 <= i < |s| && DayAverage(s, s[i].date) == DayAverage(s, b.value) ==>
        exists j :: 0 <= j <= i && s[j].date == b.value
  {
    var dates := FirstSeenDates(s);
    var b := Best(dates, AverageOf(s));
    if b.0.Some? {
      var k :| 0 <= k < |dates| && dates[k] == b.0.value && AverageOf(s)(dates[k]) == b.1 &&
               forall i :: 0 <= i < k ==> AverageOf(s)(dates[i]) < b.1;
      FirstSeenDatesFacts(s);
      forall i | 0 <= i < |s| && DayAverage(s, s[i].date) == DayAverage(s, b.0.value)
        ensures exists j :: 0 <= j <= i && s[j].date == b.0.value
      {
        var m :| 0 <= m < |dates| && dates[m] == s[i].date;
        assert AverageOf(s)(dates[m]) == b.1;
        SeenNoLater(s, i, k, m);
      }
    }
  }

  lemma BestOfDates(s: seq<MoodEntry>)
    ensures var b := Best(FirstSeenDates(s), AverageOf(s));
      && (b.0.None? <==> s == [])
      && (b.0.Some? ==> exists i :: 0 <= i < |s| && s[i].date == b.0.value)
      && (b.0.Some? ==> forall i :: 0 <= i < |s| ==> DayAverage(s, s[i].date) <= DayAverage(s, b.0.value))
  {
    var dates := FirstSeenDates(s);
    var b := Best(dates, AverageOf(s));
    FirstSeenDatesFacts(s);
    if s != [] {
      assert s[0].date in dates;
      DayCountPositive(s, 0);
      assert AverageOf(s)(s[0].date) >= 1.0;
    }
    if b.0.Some? {
      forall i | 0 <= i < |s|
        ensures DayAverage(s, s[i].date) <= DayAverage(s, b.0.value)
      {
        assert s[i].date in dates;
      }
    }
  }

  /** The store: the persisted mood history. */
  class Store {
    var moodHistory: seq<MoodEntry>

    constructor()
      ensures moodHistory == []
    {
      moodHistory := [];
    }

    /** addMood: appends an entry dated today and stamped now; returns its id. */
    method AddMood(mood: Mood, note: Option<string>, activities: Option<seq<string>>,
                   freshId: string, today: Day, nowMs: int) returns (id: string)
      modifies this
      ensures id == freshId
      ensures moodHistory == old(moodHistory) + [MoodEntry(freshId, today, nowMs, mood, note, activities)]
    {
      var newEntry := MoodEntry(freshId, today, nowMs, mood, note, activities);
      moodHistory := moodHistory + [newEntry];
      id := newEntry.id;
    }

    method UpdateMood(id: string, updates: MoodPatch)
      modifies this
      ensures moodHistory == UpdateIn(old(moodHistory), id, updates)
    {
      moodHistory := UpdateIn(moodHistory, id, updates);
    }

    method DeleteMood(id: string)
      modifies this
      ensures moodHistory == DeleteIn(old(moodHistory), id)
    {
      moodHistory := DeleteIn(moodHistory, id);
    }

    function GetMoodById(id: string): (r: Option<MoodEntry>)
      reads this
      ensures r.Some? ==> r.value in moodHistory && r.value.id == id
      ensures r.None? <==> forall i :: 0 <= i < |moodHistory| ==> moodHistory[i].id != id
      ensures r.Some? ==> exists i :: 0 <= i < |moodHistory| && moodHistory[i] == r.value &&
                            forall k :: 0 <= k < i ==> moodHistory[k].id != id
    {
      FindById(moodHistory, id)
    }

    function GetTodaysMood(today: Day): (r: Option<MoodEntry>)
      reads this
      ensures r.None? <==> forall i :: 0 <= i < |moodHistory| ==> moodHistory[i].date != today
      ensures r.Some? ==> r.value in moodHistory && r.value.date == today
      ensures r == TodaysMood(moodHistory, today)
      ensures r.Some? ==> forall i :: 0 <= i < |moodHistory| && moodHistory[i].date == today ==>
        moodHistory[i].time <= r.value.time
    {
      TodaysMoodIsLatestOfDay(moodHistory, today);
      TodaysMood(moodHistory, today)
    }

    function GetRecentMoods(days: int, today: Day): (r: seq<MoodEntry>)
      reads this
      ensures forall i :: 0 <= i < |r| ==> r[i] in moodHistory && today - days < r[i].date <= today
      ensures forall i :: 0 <= i < |moodHistory| && today - days < moodHistory[i].date <= today ==>
        moodHistory[i] in r
      ensures PicksAt(r, moodHistory, Kept(moodHistory, Within(days, today)))
    {
      RecentMoods(moodHistory, days, today)
    }

    /** getAverageMoodScore(days = 30). */
    function GetAverageMoodScore(days: Option<int>, today: Day): (r: real)
      reads this
      ensures RecentMoods(moodHistory, Or(days, 30), today) == [] ==> r == 0.0
      ensures RecentMoods(moodHistory, Or(days, 30), today) != [] ==> 1.0 <= r <= 5.0
      ensures RecentMoods(moodHistory, Or(days, 30), today) != [] ==>
        MeanScore(RecentMoods(moodHistory, Or(days, 30), today)) - 0.05 < r <=
        MeanScore(RecentMoods(moodHistory, Or(days, 30), today)) + 0.05
      ensures (r * 10.0).Floor as real == r * 10.0
    {
      AverageMoodScore(RecentMoods(moodHistory, Or(days, 30), today))
    }

    function GetMoodTrend(days: int, today: Day): (t: Trend)
      reads this
      ensures |RecentMoods(moodHistory, days, today)| < 3 ==> t == Stable
      ensures t == MoodTrend(RecentMoods(moodHistory, days, today))
    {
      MoodTrend(RecentMoods(moodHistory, days, today))
    }

    method ResetStore()
      modifies this
      ensures moodHistory == []
    {
      moodHistory := [];
    }

    /** selectMoodDistribution: the `forEach` counting each mood. */
    method SelectMoodDistribution() returns (distribution: map<Mood, nat>)
      ensures distribution == Distribution(moodHistory)
    {
      var history := moodHistory;
      distribution := map[Terrible := 0, Bad := 0, Neutral := 0, Good := 0, Excellent := 0];
      for i := 0 to |history|
        invariant distribution == Counted(history[..i])
      {
        var entry := history[i];
        assert history[..i + 1] == history[..i] + [entry];
        CountedStep(history[..i], entry);
        distribution := distribution[entry.mood := distribution[entry.mood] + 1];
      }
      assert history[..|history|] == history;
      CountedIsDistribution(history);
    }

    /** The first forEach of selectBestDay: the per-date sums and counts, keys in first-seen order. */
    method TallyByDate() returns (dates: seq<Day>, sums: map<Day, int>, counts: map<Day, nat>)
      ensures dates == FirstSeenDates(moodHistory)
      ensures sums == Tally(moodHistory).0 && counts == Tally(moodHistory).1
    {
      var history := moodHistory;
      dates, sums, counts := [], map[], map[];
      for i := 0 to |history|
        invariant dates == FirstSeenDates(history[..i])
        invariant sums == Tally(history[..i]).0 && counts == Tally(history[..i]).1
      {
        var entry := history[i];
        assert history[..i + 1] == history[..i] + [entry];
        FirstSeenStep(history[..i], entry);
        TallyKeys(history[..i], entry.date);
        TallyStep(history[..i], entry);
        if entry.date !in sums {
          sums := sums[entry.date := 0];
          counts := counts[entry.date := 0];
          dates := dates + [entry.date];
        }
        sums := sums[entry.date := sums[entry.date] + Score(entry.mood)];
        counts := counts[entry.date := counts[entry.date] + 1];
      }
      assert history[..|history|] == history;
    }

    /** selectBestDay: the strict-maximum scan over the per-date averages. */
    method SelectBestDay() returns (bestDate: Option<Day>)
      ensures bestDate == BestDay(moodHistory)
    {
      var history := moodHistory;
      var dates, sums, counts := TallyByDate();
      bestDate := None;
      var bestAvg := 0.0;
      for j := 0 to |dates|
        invariant (bestDate, bestAvg) == Best(dates[..j], AverageOf(history))
      {
        var date := dates[j];
        BestStep(dates, j, AverageOf(history));
        AverageFromTally(history, date);
        var avg := sums[date] as real / counts[date] as real;
        if avg > bestAvg {
          bestAvg := avg;
          bestDate := Some(date);
        }
      }
      assert dates[..|dates|] == dates;
    }
  }
}
