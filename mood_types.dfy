/** The records of lib/types/mood.ts and the score scale every aggregate uses. */
module MoodTypes {
  import opened Wrappers
  import opened DateUtils
  import opened Seqs
  import opened Arith

  datatype Mood = Terrible | Bad | Neutral | Good | Excellent

  /** The 1..5 score of MOOD_CONFIG and of every `moodScores` table. */
  function Score(m: Mood): (s: int)
    ensures 1 <= s <= 5
  {
    match m
    case Terrible => 1
    case Bad => 2
    case Neutral => 3
    case Good => 4
    case Excellent => 5
  }

  /** The scale is strictly increasing from terrible to excellent. */
  lemma ScoreInjective(a: Mood, b: Mood)
    ensures Score(a) == Score(b) <==> a == b
  {
  }

  /** Every mood is one of the five keys of a `Record<MoodType, number>`. */
  lemma MoodIsKey(m: Mood)
    ensures m in {Terrible, Bad, Neutral, Good, Excellent}
  {
    match m
    case Terrible =>
    case Bad =>
    case Neutral =>
    case Good =>
    case Excellent =>
  }

  /** The keys of a `Record<MoodType, number>` in declaration order. */
  const MOODS: seq<Mood> := [Terrible, Bad, Neutral, Good, Excellent]

  /** A mood entry; `time` is the logging instant in milliseconds. */
  datatype MoodEntry = MoodEntry(
    id: string,
    date: Day,
    time: int,
    mood: Mood,
    note: Option<string>,
    activities: Option<seq<string>>)

  function EntryScore(e: MoodEntry): int { Score(e.mood) }

  function HasMood(m: Mood): MoodEntry -> bool
  {
    (e: MoodEntry) => e.mood == m
  }

  /** How many entries carry mood `m`. */
  function CountMood(entries: seq<MoodEntry>, m: Mood): nat
  {
    |Filter(entries, HasMood(m))|
  }

  /** The five counts add up to the number of entries. */
  lemma {:induction false} CountMoodsSum(entries: seq<MoodEntry>)
    ensures CountMood(entries, Terrible) + CountMood(entries, Bad) + CountMood(entries, Neutral)
          + CountMood(entries, Good) + CountMood(entries, Excellent) == |entries|
  {
    if entries != [] {
      CountMoodsSum(entries[..|entries| - 1]);
    }
  }

  /** Mean score of a non-empty list of entries. */
  function MeanScore(entries: seq<MoodEntry>): (r: real)
    requires |entries| > 0
    ensures 1.0 <= r <= 5.0
  {
    SumBounds(entries, EntryScore, 1, 5);
    MeanBounds(Sum(entries, EntryScore), |entries|, 1, 5);
    Sum(entries, EntryScore) as real / |entries| as real
  }
}
