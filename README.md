# Habit tracker analytics in Dafny

This project models the logic core of a habit- and mood-tracking web
application. It does not model the views or the network. It covers:

- the date helpers;
- the streak engine and its second copy in the prediction route;
- the three record stores (habits, moods, chat messages);
- the insight and risk rule tables;
- the reductions that the insights panel, the mood chart and the two pages compute;
- the streak badge;
- the prefixed `localStorage` wrapper;
- the two keyword-matching fallback responders of the chat.

Conventions:

- A calendar date (`YYYY-MM-DD`) is an integer day number, with day 0 = 1970-01-01.
- An instant is a count of milliseconds.
- "Today" and "now" are parameters.
- Fresh ids are parameters.
- Whatever the program leaves to a library (date parsing, JSON, the model API) is a parameter or an opaque function.

Each store is a class. Its one field is the list that the store's actions replace. Every action is
proved against a function on values, and the lemmas live on those functions.

The streak functions are modelled exactly as written. One consequence is that
`calculateCurrentStreak` counts today twice. Several conclusions follow from that, and they are
proved here:

- no streak is ever "at risk";
- every `getStreakRisks` level is low;
- one branch of `getStreakStartDate` is dead;
- the streak predictor's card list is always empty.

"## Findings" records this and a second defect. It also gives, for each, the corrected behaviour
that the prediction route implements.

Shared modules:

- `Seqs`: `filter`, `reduce`-style sums, `find`, `indexOf`.
- `Sorting`: `Array.prototype.sort`, as a stable insertion sort over a strict weak order.
- `Text`: ASCII `toLowerCase`, `includes`, `trim`, number printing.
- `Arith`: `Math.round` on reals.

## Model

| member | source | states |
|---|---|---|
| DateUtils.DateDiff | lib/utils/dateUtils.ts:42-48 | 0 when the dates are equal or when either fails to parse; its sign says which date is later (DateDiffCounts makes it the count a − b) |
| DateUtils.DateDiffCounts | lib/utils/dateUtils.ts:42-48 | the next day is exactly one day on, and differences along a chain of dates add up, so the difference is the signed day count a − b |
| DateUtils.DateDiffAntisymmetric | lib/utils/dateUtils.ts:42-48 | swapping the two dates negates the difference |
| DateUtils.IsSameDay | lib/utils/dateUtils.ts:53-59 | holds iff both dates parse and are the same day; an unparseable date gives a NaN difference, never the same day |
| DateUtils.SameDayIffNoDifference | lib/utils/dateUtils.ts:42-59 | the same day iff both parse and getDateDiff is 0; the relation is symmetric |
| DateUtils.IsToday | lib/utils/dateUtils.ts:64-66 | "today" iff the date parses and equals today; false for an unparseable date |
| DateUtils.IsPast | lib/utils/dateUtils.ts:71-73 | holds iff the date parses and is strictly before today; false for today and every future date |
| DateUtils.LastNDays | lib/utils/dateUtils.ts:78-88 | max(n, 0) dates, each one day after the previous, the last being today, and exactly the days in (today − n, today] |
| DateUtils.GetLastNDays | lib/utils/dateUtils.ts:78-88 | the push loop builds exactly `LastNDays(n, today)` |
| DateUtils.Weekday | lib/utils/dateUtils.ts:95 | the Monday-based weekday of a day number lies in 0..6 |
| DateUtils.GetWeekDates | lib/utils/dateUtils.ts:93-104 | 7 consecutive days, the first a Monday, containing the given date (or today when none is given); no result when the given string does not parse |
| DateUtils.DaysBetween | lib/utils/dateUtils.ts:44 | `differenceInDays` on instants: whole days, truncated toward zero in both directions |
| DateUtils.GetRelativeTime | lib/utils/dateUtils.ts:127-144 | the input unchanged on a parse failure; otherwise "just now" for less than a minute (any future instant included), then floored minutes below an hour, hours below a day, days below a week, each within its bounds, else the formatted date of that same instant |
| DateUtils.FormatDate | lib/utils/dateUtils.ts:20-26 | the input string itself when it does not parse, otherwise the library rendering |
| DateUtils.FormatDayName | lib/utils/dateUtils.ts:31-37 | the input string itself when it does not parse |
| MoodTypes.Score | lib/types/mood.ts:20-26 | the MOOD_CONFIG score lies in 1..5 |
| MoodTypes.ScoreInjective | lib/types/mood.ts:20-26 | different moods have different scores |
| MoodTypes.CountMoodsSum | lib/stores/moodStore.ts:138-152 | the five per-mood counts of a list add up to its length |
| MoodTypes.MeanScore | lib/types/mood.ts:20-26 | the mean score of a non-empty list lies in [1, 5] |
| StreakCalculator.SortedDays | lib/utils/streakCalculator.ts:47 | `sort()` of the date strings gives the same days, oldest first |
| StreakCalculator.NewestFirst | lib/utils/streakCalculator.ts:10 | `sort().reverse()` gives the same days, newest first, headed by the maximum |
| StreakCalculator.RunBack | lib/utils/streakCalculator.ts:30-36 | the walk-back count n: the days d, d−1, …, d−n+1 are all completed and d−n is not |
| StreakCalculator.CurrentStreak | lib/utils/streakCalculator.ts:7-39 | as written: positive iff the newest completion is today, and then 1 + the run ending today, so at least 2; otherwise 0, including when the newest completion is yesterday |
| StreakCalculator.CalculateCurrentStreak | lib/utils/streakCalculator.ts:7-39 | the loop with `indexOf` look-ups on the newest-first list returns `CurrentStreak` |
| StreakCalculator.RunEndingAt | lib/utils/streakCalculator.ts:51-61 | the run counter at position i lies in 1..i+1 |
| StreakCalculator.RunEndingAtIsRun | lib/utils/streakCalculator.ts:51-61 | the counted run consists of days exactly one apart and cannot be extended to the left |
| StreakCalculator.LongestRunIn | lib/utils/streakCalculator.ts:48-63 | the running maximum after n positions lies in 1..n |
| StreakCalculator.LongestRunInIsMax | lib/utils/streakCalculator.ts:48-63 | the running maximum bounds every run counter seen and equals one of them |
| StreakCalculator.LongestRunStep | lib/utils/streakCalculator.ts:55-60 | a neighbour exactly one day later extends the run, anything else (a duplicate included) resets it to 1 |
| StreakCalculator.LongestStreak | lib/utils/streakCalculator.ts:44-64 | 0 iff there are no completions; at most the number of completions; the longest run of sorted neighbours one day apart |
| StreakCalculator.CalculateLongestStreak | lib/utils/streakCalculator.ts:44-64 | the for loop returns `LongestStreak` |
| StreakCalculator.TodayCountedTwice | lib/utils/streakCalculator.ts:17-36 | a single completion made today gives current streak 2 but longest streak 1 |
| StreakCalculator.StreakStartDate | lib/utils/streakCalculator.ts:80-92 | undefined when there is no current streak; otherwise, when defined, one of the completed days |
| StreakCalculator.StreakStartUsesTodayBranch | lib/utils/streakCalculator.ts:87-91 | with a non-zero streak the newest completion is today, so the `else` branch is dead |
| StreakCalculator.StreakStartUndefinedForWholeRun | lib/utils/streakCalculator.ts:88 | when the completions are exactly the last n days, the index length − currentStreak is −1 and the start date is undefined |
| StreakCalculator.RunBackOfWindow | lib/utils/dateUtils.ts:78-88 | walking back through the last-n-days window counts exactly the days left in it |
| StreakCalculator.IsStreakAtRisk | lib/utils/streakCalculator.ts:97-109 | never true: a streak above 3 requires today's completion, which rules the risk out |
| StreakCalculator.StreakRiskOf | lib/utils/streakCalculator.ts:117-139 | the entry carries the habit's id, and its level is always low |
| StreakCalculator.GetStreakRisks | lib/utils/streakCalculator.ts:114-140 | one entry per active habit, in input order, each with that habit's id and level low |
| StreakCalculator.WindowHits | lib/utils/streakCalculator.ts:149-157 | the completed days among the last k lie in 0..k, and are 0 for no completions |
| StreakCalculator.GetCompletionRate | lib/utils/streakCalculator.ts:145-160 | NaN (None) for 0 days; 0 for negative days; otherwise the hits in the window divided by the days, in [0, 1] |
| StreakCalculator.ConsistencyScore | lib/utils/streakCalculator.ts:183-198 | lies in 0..100, and is 0 with no completions |
| StreakCalculator.SpanDays | lib/utils/streakCalculator.ts:186-189 | the days since creation that the rate divides by: at least one |
| StreakCalculator.ConsistencyScoreIs | lib/utils/streakCalculator.ts:183-198 | with completions, the score min(100, round(100 · (count / days since creation + min(0.02 · current streak, 0.2)))) equals min(100, round(100 · count / days since creation) + min(2 · current streak, 20)), since the bonus is a whole number of points |
| StreakCalculator.ConsistencyMonotone | lib/utils/streakCalculator.ts:183-198 | with the same completion count and creation instant, a longer current streak never lowers the score |
| StreakCalculator.GetStreakData | lib/utils/streakCalculator.ts:69-75 | the three fields are the current streak, the longest streak and the start date |
| HabitStore.ApplyPatchIdempotent | lib/stores/habitStore.ts:47 | spreading the same update object twice equals spreading it once; an empty update changes nothing |
| HabitStore.UpdateIn | lib/stores/habitStore.ts:44-50 | same length; habits with the id get the patch, every other habit is unchanged in place |
| HabitStore.DeleteIn | lib/stores/habitStore.ts:52-56 | keeps exactly the habits whose id differs (no deleted id survives), in their original order |
| HabitStore.DeleteAbsent | lib/stores/habitStore.ts:52-56 | deleting an id no habit carries leaves the list as it was |
| HabitStore.FilterDayMultiset | lib/stores/habitStore.ts:68 | filtering a day out removes every copy of it and nothing else |
| HabitStore.FilterDayAscending | lib/stores/habitStore.ts:68 | filtering keeps a sorted list sorted |
| HabitStore.ToggleDates | lib/stores/habitStore.ts:63-69 | the toggled day is present afterwards iff it was absent before; other days keep their presence; a present day loses every copy and the remaining days keep their order; an absent day is added once and the list comes out sorted |
| HabitStore.ToggleKeepsAscending | lib/stores/habitStore.ts:63-69 | a sorted completion list stays sorted after any toggle |
| HabitStore.AscendingUnique | lib/stores/habitStore.ts:69 | two sorted lists with the same days are equal, so the re-sort is determined |
| HabitStore.HeadIsLeast | lib/stores/habitStore.ts:69 | the head of a sorted list is the least of its days |
| HabitStore.ToggleTwice | lib/stores/habitStore.ts:63-69 | toggling the same day twice restores a sorted list that holds the day at most once |
| HabitStore.ToggleIn | lib/stores/habitStore.ts:58-73 | same length; only habits with the id change, and only in their completion list |
| HabitStore.ToggleInTwice | lib/stores/habitStore.ts:58-73 | toggling a day twice restores the whole store when that habit's days are sorted and hold the day at most once |
| HabitStore.FindById | lib/stores/habitStore.ts:75-77 | `find`: None iff no habit has the id; otherwise the first habit with it |
| HabitStore.FindAdded | lib/stores/habitStore.ts:29-42 | a habit appended under an unused id is found by that id |
| HabitStore.FindDeleted | lib/stores/habitStore.ts:52-56 | after deletion nothing is found under the id |
| HabitStore.TotalStreaksZero | lib/stores/habitStore.ts:120-122 | the total of the current streaks is never negative, and is 0 iff no habit's newest completion is today |
| HabitStore.Store.constructor | lib/stores/habitStore.ts:22-27 | the store starts empty |
| HabitStore.Store.AddHabit | lib/stores/habitStore.ts:29-42 | appends exactly one habit with the fresh id, the creation instant and no completions, and returns the id; earlier habits are unchanged |
| HabitStore.Store.UpdateHabit | lib/stores/habitStore.ts:44-50 | the list becomes `UpdateIn` of the old list |
| HabitStore.Store.DeleteHabit | lib/stores/habitStore.ts:52-56 | the list becomes `DeleteIn` of the old list |
| HabitStore.Store.ToggleCompletion | lib/stores/habitStore.ts:58-73 | the list becomes `ToggleIn` of the old list |
| HabitStore.Store.GetHabitById | lib/stores/habitStore.ts:75-77 | None iff no habit of the store has that id; otherwise the first habit with it |
| HabitStore.Store.GetActiveHabits | lib/stores/habitStore.ts:79-81 | exactly the active habits of the store, in store order |
| HabitStore.Store.GetHabitsByCategory | lib/stores/habitStore.ts:83-85 | exactly the habits whose category equals the argument, in store order |
| HabitStore.Store.GetTodayHabits | lib/stores/habitStore.ts:87-90 | the computed date is unused: the result is the active list |
| HabitStore.Store.GetStreakForHabit | lib/stores/habitStore.ts:92-96 | 0 for an unknown id, else the current streak of the habit found |
| HabitStore.Store.GetLongestStreakForHabit | lib/stores/habitStore.ts:98-102 | 0 for an unknown id, else the longest streak of the habit found |
| HabitStore.Store.ResetStore | lib/stores/habitStore.ts:104-106 | the list becomes empty |
| HabitStore.Store.SelectActiveHabits | lib/stores/habitStore.ts:115 | the same list getActiveHabits returns: exactly the active habits, in store order |
| HabitStore.Store.SelectCompletedToday | lib/stores/habitStore.ts:116-119 | exactly the habits, active or not, with a completion today, in store order |
| HabitStore.Store.SelectTotalStreaks | lib/stores/habitStore.ts:120-122 | the `reduce` loop yields the sum of the current streaks |
| MoodStore.UpdateIn | lib/stores/moodStore.ts:48-54 | same length; entries carrying the id are patched field by field, every other entry is kept in place |
| MoodStore.DeleteIn | lib/stores/moodStore.ts:56-60 | exactly the entries whose id differs survive, in their original order |
| MoodStore.DeleteAbsent | lib/stores/moodStore.ts:56-60 | deleting an id no entry carries leaves the history as it was |
| MoodStore.FindById | lib/stores/moodStore.ts:62-64 | None exactly when no entry carries the id; otherwise the first entry of the history with that id |
| MoodStore.FindDeleted | lib/stores/moodStore.ts:56-64 | after deleting an id, looking it up finds nothing |
| MoodStore.LaterIsStrictWeakOrder | lib/stores/moodStore.ts:68-70 | the latest-first comparator is a strict weak order, so the sort is well defined |
| MoodStore.TodaysMood | lib/stores/moodStore.ts:66-71 | None exactly when no entry is dated today; otherwise an entry of today |
| MoodStore.TodaysMoodIsLatest | lib/stores/moodStore.ts:66-71 | the entry returned has the latest time of today's entries, and every earlier one in the list is strictly older (stable sort) |
| MoodStore.TodaysMoodIsLatestOfDay | lib/stores/moodStore.ts:66-71 | no entry of today anywhere in the history was logged after today's mood |
| MoodStore.MoodsForDate | lib/stores/moodStore.ts:73-75 | exactly the entries of that date, in history order |
| MoodStore.MoodsForDateRange | lib/stores/moodStore.ts:77-81 | exactly the entries dated between the two dates, both included, in history order; empty when start is after end |
| MoodStore.RecentMoods | lib/stores/moodStore.ts:83-86 | exactly the entries dated in the last `days` days including today, in history order; empty for zero or fewer days |
| MoodStore.AverageMoodScore | lib/stores/moodStore.ts:88-102 | 0 for no entries, otherwise within [1, 5]; a whole number of tenths within 0.05 of the exact mean, halves rounded up, which is `Math.round(10·mean)/10` |
| MoodStore.MoodTrend | lib/stores/moodStore.ts:104-125 | stable below three entries; improving / declining / stable exactly as the second half's mean is above, below or within 0.3 of the first half's |
| MoodStore.MeanOfConstant | lib/stores/moodStore.ts:117-121 | the mean score of entries with one mood is that mood's score |
| MoodStore.ConstantMoodIsStable | lib/stores/moodStore.ts:104-125 | a history of one repeated mood is always stable |
| MoodStore.Distribution | lib/stores/moodStore.ts:138-152 | each of the five moods maps to its count, and the counts add up to the number of entries |
| MoodStore.Counted | lib/stores/moodStore.ts:139-149 | the counting loop's record holds a counter for each of the five moods, starting at zero |
| MoodStore.CountedStep | lib/stores/moodStore.ts:147-149 | one more entry raises exactly its mood's counter by one |
| MoodStore.CountedCounts | lib/stores/moodStore.ts:139-149 | after the loop over a list, each mood's counter is the number of entries with that mood |
| MoodStore.CountedIsDistribution | lib/stores/moodStore.ts:139-149 | the counters add up to the distribution record |
| MoodStore.DayStep | lib/stores/moodStore.ts:163-171 | one more entry adds one and its score to its own date and nothing to others |
| MoodStore.DayCountPositive | lib/stores/moodStore.ts:163-171 | a date that occurs has at least one entry |
| MoodStore.DayAverage | lib/stores/moodStore.ts:174-175 | a day with entries averages within [1, 5] |
| MoodStore.FirstSeenDatesFacts | lib/stores/moodStore.ts:163-171 | the keys of the per-date record are distinct, cover every entry's date, and are dates of entries |
| MoodStore.TallyMeaning | lib/stores/moodStore.ts:163-171 | the per-date record has a key exactly for each occurring date, holding that date's score sum and entry count |
| MoodStore.TallyAt | lib/stores/moodStore.ts:164-170 | one more entry keeps, date by date, the record's keys at the first-seen dates and its values at the date's sum and count |
| MoodStore.FirstSeenStep | lib/stores/moodStore.ts:165-168 | a new date is appended to the key order; a known date leaves it unchanged |
| MoodStore.TallyStep | lib/stores/moodStore.ts:164-170 | one step of the first loop: create the date's record if missing, then add the score and one |
| MoodStore.Best | lib/stores/moodStore.ts:173-184 | the scan's best average is at least 0 and at least every date's average; the date it keeps attains it and is the first to exceed all before it |
| MoodStore.BestStep | lib/stores/moodStore.ts:176-183 | one step of the scan replaces the best only on a strictly larger average |
| MoodStore.AverageFromTally | lib/stores/moodStore.ts:174-175 | the record's sum over count for a listed date is the day's average |
| MoodStore.BestDay | lib/stores/moodStore.ts:154-185 | none (the empty string) exactly for an empty history; otherwise a date that occurs whose average no other date exceeds, and among dates with that average the first one logged |
| MoodStore.Store.constructor | lib/stores/moodStore.ts:21-26 | the history starts empty |
| MoodStore.Store.AddMood | lib/stores/moodStore.ts:28-46 | appends one entry dated today, stamped now, with the fresh id it returns |
| MoodStore.Store.UpdateMood | lib/stores/moodStore.ts:48-54 | the history becomes UpdateIn of the old one |
| MoodStore.Store.DeleteMood | lib/stores/moodStore.ts:56-60 | the history becomes DeleteIn of the old one |
| MoodStore.Store.GetMoodById | lib/stores/moodStore.ts:62-64 | None exactly when no entry carries the id, otherwise the first entry with it |
| MoodStore.Store.GetTodaysMood | lib/stores/moodStore.ts:66-71 | TodaysMood of the history: None exactly when nothing is dated today, otherwise an entry of today that no entry of today was logged after |
| MoodStore.Store.GetRecentMoods | lib/stores/moodStore.ts:83-86 | exactly the history entries dated within the window, in history order |
| MoodStore.Store.GetAverageMoodScore | lib/stores/moodStore.ts:88-102 | with the default of 30 days: 0 for an empty window, otherwise in [1, 5], on the one-decimal grid and within 0.05 of the window's mean |
| MoodStore.Store.GetMoodTrend | lib/stores/moodStore.ts:104-125 | MoodTrend of the window: stable when it holds under three entries |
| MoodStore.Store.ResetStore | lib/stores/moodStore.ts:127-129 | the history becomes empty |
| MoodStore.Store.SelectMoodDistribution | lib/stores/moodStore.ts:138-152 | the counting loop yields Distribution of the history |
| MoodStore.Store.TallyByDate | lib/stores/moodStore.ts:163-171 | the first loop yields the record's keys in first-seen order and its sums and counts |
| MoodStore.Store.SelectBestDay | lib/stores/moodStore.ts:154-185 | the two loops yield BestDay of the history |
| ChatStore.UpdateIn | lib/stores/chatStore.ts:38-44 | same length, ids and roles kept; the messages carrying the id get the new content and the current instant, the others are unchanged |
| ChatStore.UpdateIdempotent | lib/stores/chatStore.ts:38-44 | the same update applied twice at the same instant equals applying it once |
| ChatStore.DeleteIn | lib/stores/chatStore.ts:46-50 | exactly the messages whose id differs survive, in their original order |
| ChatStore.DeleteAbsent | lib/stores/chatStore.ts:46-50 | deleting an id nobody carries leaves the list as it was |
| ChatStore.LastMessage | lib/stores/chatStore.ts:56-59 | undefined exactly for the empty list, otherwise the last message |
| ChatStore.MessagesByRole | lib/stores/chatStore.ts:61-63 | exactly the messages with that role, in conversation order |
| ChatStore.RolesPartition | lib/stores/chatStore.ts:61-63 | the three role lists together are as long as the whole list |
| ChatStore.ConversationHistory | lib/stores/chatStore.ts:76-78 | the last min(10, n) messages, a suffix of the list |
| ChatStore.HistoryAfterAdd | lib/stores/chatStore.ts:76-78 | after one more message the window gains it and, when full, drops its oldest |
| ChatStore.HasUnreadAssistantMessage | lib/stores/chatStore.ts:80-83 | true exactly when the list is non-empty and its last message came from the assistant |
| ChatStore.LastAfterAdd | lib/stores/chatStore.ts:23-36 | after addMessage the new message is the last one, unread exactly when the assistant sent it |
| ChatStore.Store.constructor | lib/stores/chatStore.ts:16-21 | the list starts empty |
| ChatStore.Store.AddMessage | lib/stores/chatStore.ts:23-36 | appends one message with the fresh id, the role, the content and the current instant, and returns the id |
| ChatStore.Store.UpdateMessage | lib/stores/chatStore.ts:38-44 | the list becomes UpdateIn of the old one |
| ChatStore.Store.DeleteMessage | lib/stores/chatStore.ts:46-50 | the list becomes DeleteIn of the old one |
| ChatStore.Store.ClearMessages | lib/stores/chatStore.ts:52-54 | the list becomes empty |
| ChatStore.Store.GetLastMessage | lib/stores/chatStore.ts:56-59 | undefined exactly for the empty list, otherwise the last message |
| ChatStore.Store.GetMessagesByRole | lib/stores/chatStore.ts:61-63 | exactly the messages with that role, in conversation order |
| ChatStore.Store.ResetStore | lib/stores/chatStore.ts:65-67 | the list becomes empty |
| ChatStore.Store.SelectConversationHistory | lib/stores/chatStore.ts:76-78 | the last min(10, n) messages |
| ChatStore.Store.SelectHasUnreadAssistantMessage | lib/stores/chatStore.ts:80-83 | true exactly when the last message came from the assistant |
| Predict.PredictedStreak | app/api/predict/route.ts:31-57 | positive exactly when the newest completion is today or yesterday; then every day of the run back from it is completed and the day before the run is not |
| Predict.WalkBack | app/api/predict/route.ts:37-45 | the `indexOf` loop counts the completed days running back from its start |
| Predict.ComputeStreak | app/api/predict/route.ts:31-57 | the route's streak computation yields PredictedStreak |
| Predict.EnginesCompared | app/api/predict/route.ts:31-57 | with the newest completion today the calculator's streak is one more than the route's; with it yesterday the calculator gives 0 and the route a positive streak |
| Predict.DistinctSortedIncreasing | app/api/predict/route.ts:143 | sorted days without repeats increase strictly |
| Predict.RunAtLeast | app/api/predict/route.ts:143-158 | the scan's run ending at a day covers the whole run of completed days ending there |
| Predict.PredictedWithinLongest | app/api/predict/route.ts:104-105 | without repeated days the reported current streak never exceeds the reported longest streak |
| Predict.RuleChain | app/api/predict/route.ts:59-90 | the first rule that holds decides: at risk gives high, 0.95 and the "save your streak" suggestion; milestone gives high and 0.9; needs attention gives medium, 0.85 and "get back on track"; growing gives medium, 0.8 and "keep the momentum"; otherwise low at 0.9, with "Completed today!" once today is done and nothing when not; high exactly for the two high rules, medium exactly for the two medium ones |
| Predict.AssessRisk | app/api/predict/route.ts:59-90 | the route's statements, starting from low at 0.9 and overwritten by the first branch that holds, compute RuleChain |
| Predict.StreakImpliesYesterday | app/api/predict/route.ts:28-57 | a positive route streak not extended today was extended yesterday |
| Predict.MilestoneUnreachable | app/api/predict/route.ts:66-75 | whenever the milestone rule holds the at-risk rule before it holds too, so it never decides |
| Predict.GrowingOnlyFiveOrSix | app/api/predict/route.ts:76-85 | the "growing" rule decides only for streaks of 5 and 6 |
| Predict.RouteRiskLevels | app/api/predict/route.ts:59-90 | with the route's streak the rule chain gives: high exactly from 14 days, medium exactly from 5 to 13 days, both only when today is not done |
| Predict.GetLast30Days | app/api/predict/route.ts:127-138 | thirty days, today first, each one day before the previous; exactly the days of the last thirty |
| Predict.ContinuationProbability | app/api/predict/route.ts:92-99 | the percentage lies between 30 and 95 |
| Predict.ContinuationMonotone | app/api/predict/route.ts:92-99 | more completions in the window never lower the probability |
| Predict.HistoricalCompletionRate | app/api/predict/route.ts:95 | at least 0, and at most 100 with at most thirty completions in the window |
| Predict.RouteLongestStreak | app/api/predict/route.ts:140-161 | the route's millisecond scan yields the calculator's longest streak |
| Predict.PredictionOf | app/api/predict/route.ts:26-114 | one habit's prediction: id and name copied, the route's streak, the longest streak, today's completion; high exactly from 14 days and medium exactly from 5 to 13 days while today is not done; a high one reports confidence 95 with the at-risk factor, a medium one 85 with the needs-attention factor from 7 days and 80 with the growing factor below, a low one 90 with "Completed today!" exactly when today is done; probability within 30..95 |
| Predict.PredictHabit | app/api/predict/route.ts:26-114 | the route's statements, with its `indexOf` walk, its 30-day list and its millisecond scan, compute PredictionOf |
| Predict.SeverityOrder | app/api/predict/route.ts:115-118 | the severity sort keeps every prediction and lists the high, then the medium, then the low ones, each in input order |
| Predict.LevelBucket | app/api/predict/route.ts:115-118 | the predictions of a level's rank are exactly the predictions of that level |
| Predict.GenerateStreakPredictions | app/api/predict/route.ts:20-119 | the result is a permutation of PredictionOf applied to each active habit in order, listing the high, then the medium, then the low predictions, each group in habit order |
| StreakPredictor.AssessOverwriting | components/ai/StreakPredictor.tsx:34-68 | the three blocks as written: the level is never high; a habit meeting a high rule ends medium with two factors; low with "Completed today!" once today is done; medium exactly when not done and a medium rule holds |
| StreakPredictor.AssessHabit | components/ai/StreakPredictor.tsx:28-78 | the card carries the habit's id and the calculator's streak, and its level is always low |
| StreakPredictor.StreakRisks | components/ai/StreakPredictor.tsx:23-85 | after dropping the low cards nothing remains: the list is always empty |
| StreakPredictor.VisibleRisks | components/ai/StreakPredictor.tsx:87 | exactly the cards whose habit was not dismissed, in card order |
| StreakPredictor.VisibleRisksMonotone | components/ai/StreakPredictor.tsx:87 | dismissing nothing shows every card; dismissing more never shows more |
| Insights.CompletionRate | app/api/insights/route.ts:30-39 | within [0, 1]; 0 with no active habit; otherwise the number of active habits done today over the number of active habits; exactly 1 when every one is done |
| Insights.Percent | app/api/insights/route.ts:71 | the rounded percentage lies within 0..100 and within half a point of the rate |
| Insights.RecentMoodsSelect | app/api/insights/route.ts:27 | the recent moods are exactly the moods dated on or after the window start, in history order |
| Insights.CompletionRules | app/api/insights/route.ts:59-80 | the exact lists of the rate's band: perfect day with its achievement at 1, great progress with the percentage from 0.75, nothing from 0.5 or with no active habit, otherwise the low-completion pattern and its suggestion |
| Insights.MoodRules | app/api/insights/route.ts:92-111 | with five or more recent moods, improving when the last of the final five scores at least one more than the first, mood awareness with its suggestion when at least one less, else nothing |
| Insights.CountRules | app/api/insights/route.ts:113-122 | the add-one suggestion exactly with no active habit, consolidate exactly above seven, track mood exactly below three moods |
| Insights.PatternsPushed | app/api/insights/route.ts:54-122 | in the pushed patterns: perfect day exactly at rate 1; great progress with the percentage exactly from 0.75 to below 1; room for improvement exactly with active habits below 0.5; improving mood exactly with five or more recent moods whose last scores at least one more than the fifth-last; mood awareness exactly when it scores at least one less; at most two |
| Insights.AchievementsPushed | app/api/insights/route.ts:54-122 | in the pushed achievements: perfect completion exactly at rate 1; the seven-day-run achievement exactly when some active habit has seven completions in the window; at most two |
| Insights.SuggestionsPushed | app/api/insights/route.ts:54-122 | in the pushed suggestions: start with one exactly with active habits below 0.5; take time exactly on a falling mood trend; add one exactly with no active habit; consolidate exactly above seven; track mood exactly below three recent moods; at most three |
| Insights.ApplyRules | app/api/insights/route.ts:54-122 | the pushes yield exactly the completion, mood, streak and count rules' lists, in the order the route pushes them |
| Insights.GenerateInsights | app/api/insights/route.ts:20-136 | the summary counts, the completion percentage as the rounded rate within 0..100, the average mood as the store rounds it, and exactly the rules' pattern, achievement and suggestion lists over the active habits and the recent moods, in push order |
| Insights.GeneratedRulesHold | app/api/insights/route.ts:54-122 | in the lists generateInsights returns, each pattern, achievement and suggestion is present exactly under its rule's condition, and there are at most two, two and three of them |
| InsightsPanel.ScoreHabit | components/ai/InsightsPanel.tsx:35-39 | the habit, its consistency score within 0..100, and a "current streak" equal to the number of completions dated on or after the window start |
| InsightsPanel.CountSince | components/ai/InsightsPanel.tsx:38 | the filter's length is the number of positions holding a date on or after the window start |
| InsightsPanel.ScoresOf | components/ai/InsightsPanel.tsx:35-39 | one score per active habit, in order |
| InsightsPanel.ByConsistency | components/ai/InsightsPanel.tsx:41 | a permutation of the scores, highest consistency first |
| InsightsPanel.TotalCompletions | components/ai/InsightsPanel.tsx:52-56 | non-negative, zero exactly when no active habit has a completion |
| InsightsPanel.TotalCompletionsOne | components/ai/InsightsPanel.tsx:52-56 | one habit contributes the length of its completion list |
| InsightsPanel.TotalCompletionsAppend | components/ai/InsightsPanel.tsx:52-56 | the total over two lists of habits is the sum of their totals, so the total is the sum of completion-list lengths |
| InsightsPanel.ComputeInsights | components/ai/InsightsPanel.tsx:24-58 | the route's completion rate, the store's mood average over `days` and trend over min(days, 14), the sorted scores and the completion total |
| InsightsPanel.BestAndWorst | components/ai/InsightsPanel.tsx:42-43 | best and worst are undefined exactly with no active habit; otherwise active habits with the highest and the lowest consistency |
| InsightsPanel.BestHabit | components/ai/InsightsPanel.tsx:42 | `habitScores[0]`: undefined exactly for an empty list, otherwise its first entry |
| InsightsPanel.WorstHabit | components/ai/InsightsPanel.tsx:43 | `habitScores[length - 1]`: undefined exactly for an empty list, otherwise its last entry |
| InsightsPanel.ShowsNeedsAttention | components/ai/InsightsPanel.tsx:127 | the worst entry is a different entry from the best exactly when at least two scores are listed |
| InsightsPanel.ConsistencyExtremes | components/ai/InsightsPanel.tsx:41-43 | the ends of the sorted scores belong to listed habits and bound every habit's score |
| InsightsPanel.PermutedEnds | components/ai/InsightsPanel.tsx:41-43 | a descending rearrangement starts with a maximum and ends with a minimum of the original |
| InsightsPanel.NeedsAttentionNeedsTwo | components/ai/InsightsPanel.tsx:127 | the "Needs Attention" card appears exactly when at least two habits are active |
| InsightsPanel.TotalStreakCounts | components/ai/InsightsPanel.tsx:52-56 | the total is at least every active habit's completion count |
| InsightsPanel.SumAtLeastTerm | components/ai/InsightsPanel.tsx:52-56 | a sum of non-negative terms is at least each term |
| InsightsPanel.Tips | components/ai/InsightsPanel.tsx:163-186 | each tip shows exactly under its condition |
| InsightsPanel.TipsConsistent | components/ai/InsightsPanel.tsx:163-186 | for a record carrying the route's completion rate and the active-habit count (as ComputeInsights' result does): "start small" never shows beside the consolidation or celebration tips and always shows with no active habit; the celebration shows exactly when there are active habits and every one is done today |
| MoodChart.MoodHeight | components/mood/MoodChart.tsx:16-22 | each mood's height is twenty times its score, between 20 and 100 |
| MoodChart.BarHeight | components/mood/MoodChart.tsx:59 | the bar is 8 exactly for a day without a mood |
| MoodChart.HeightsIncrease | components/mood/MoodChart.tsx:16-22 | heights rise strictly from terrible to excellent, all above the empty bar |
| MoodChart.LastOnDate | components/mood/MoodChart.tsx:41-43 | None exactly when no entry has the date; otherwise an entry of that date |
| MoodChart.LastOnDateStep | components/mood/MoodChart.tsx:41-43 | the newest entry decides when it is dated that day; otherwise the earlier entries do |
| MoodChart.LastOnDateIsLast | components/mood/MoodChart.tsx:41-43 | no entry of the date comes after the one picked |
| MoodChart.ChartData | components/mood/MoodChart.tsx:36-50 | one entry per day of the window, in order, and only the final one is today |
| MoodChart.ChartShowsLastOfDay | components/mood/MoodChart.tsx:36-50 | each bar shows the last mood the whole history logged on its day |
| MoodChart.CountMoods | components/mood/MoodChart.tsx:171-185 | the counting loop yields the store's mood distribution of the recent moods |
| MoodChart.Entries | components/mood/MoodChart.tsx:188 | the five (mood, count) pairs in key order |
| MoodChart.DominantMood | components/mood/MoodChart.tsx:188 | one of the five moods with its own count, and no mood has a higher count |
| MoodChart.HeadIsMax | components/mood/MoodChart.tsx:188 | the head of the entries sorted by descending count carries the highest count |
| MoodChart.DominantIsFirstMax | components/mood/MoodChart.tsx:188 | the dominant mood has the highest count; ties go to the first mood from terrible to excellent |
| MoodChart.DominantPercent | components/mood/MoodChart.tsx:187-235 | the percentage shows exactly when there are recent moods, and then lies between 20 and 100 |
| MoodChart.ShareBounds | components/mood/MoodChart.tsx:235 | a share of at least a fifth rounds to a percentage between 20 and 100 |
| InsightsPage.TotalCompletions | app/insights/page.tsx:20 | non-negative, zero exactly when no habit, active or not, has a completion |
| InsightsPage.TotalCountsInactive | app/insights/page.tsx:20 | the page's total is at least the active habits' total |
| InsightsPage.TotalSplitsByActive | app/insights/page.tsx:20 | the page's total is the active habits' total plus the inactive habits' total |
| InsightsPage.SumOfFilter | app/insights/page.tsx:20 | dropping non-negative terms never raises a sum |
| InsightsPage.MaxScore | app/insights/page.tsx:22-25 | the reduce from 0 is at least every habit's score, and either 0 or one of them |
| InsightsPage.BestStreak | app/insights/page.tsx:22-25 | at least every active habit's longest streak, and either 0 or one of them |
| InsightsPage.BestStreakAttained | app/insights/page.tsx:22-25 | 0 with no active habit, otherwise some active habit's longest streak |
| InsightsPage.BestBy | app/insights/page.tsx:27-33 | null exactly for no habits; otherwise a listed habit whose score no other exceeds |
| InsightsPage.BestByIsEarliest | app/insights/page.tsx:27-33 | every habit before the chosen one scores strictly lower, so ties go to the earliest |
| InsightsPage.BestHabit | app/insights/page.tsx:27-33 | null exactly with no active habit; otherwise the active habit with the highest consistency score |
| InsightsPage.DominantMood | app/insights/page.tsx:36-45 | one of the five moods with its count over the whole history, no mood counted more often, and a positive count exactly when a mood was logged |
| HabitsPage.ActiveThenNewestIsStrictWeakOrder | app/habits/page.tsx:28-33 | the comparator is a strict weak order, so the sort is well defined |
| HabitsPage.SortActiveFirst | app/habits/page.tsx:28-33 | a permutation with every active habit before every inactive one, newest first within each group |
| HabitsPage.FilteredHabits | app/habits/page.tsx:21-33 | exactly the habits matching the search (name or description, case-folded) and the category, as a permutation of the filter, active first and newest first |
| HabitsPage.SameElements | app/habits/page.tsx:21-33 | two rearrangements of one list hold the same elements |
| HabitsPage.ContainsEmpty | app/habits/page.tsx:23 | the empty query occurs in every name |
| HabitsPage.NoFilterKeepsAll | app/habits/page.tsx:17-27 | the initial empty query with "all" selected lists every habit |
| HabitsPage.SearchIgnoresCase | app/habits/page.tsx:23-24 | an upper-cased query lists exactly what the query lists |
| HabitsPage.SplitIsPartition | app/habits/page.tsx:35-36 | the sorted list is its active part followed by its inactive part |
| HabitsPage.ActiveFirstSplits | app/habits/page.tsx:35-36 | a list with active habits first is its active filter followed by its inactive filter |
| HabitsPage.OrderedIsPFirst | app/habits/page.tsx:30 | a list where no matching element follows a non-matching one has the matching elements as a prefix |
| HabitsPage.SplitWhereFirst | app/habits/page.tsx:35-36 | a list whose matching elements come first is those followed by the rest |
| HabitsPage.CategoryCountsBounded | app/habits/page.tsx:80-94 | the five category counts add up to at most the "All" count |
| StreakDisplay.ColorOf | components/habits/StreakDisplay.tsx:27-33 | low below 7, medium from 7 to 20, high from 21 to 49, extreme from 50 |
| StreakDisplay.ColorMonotone | components/habits/StreakDisplay.tsx:27-33 | a longer streak never gets a cooler colour |
| StreakDisplay.CeilTenth | components/habits/StreakDisplay.tsx:41 | the ceiling of a tenth: the least c with streak at most 10c |
| StreakDisplay.FlameCount | components/habits/StreakDisplay.tsx:41 | at most 3; 3 exactly above 20 days; otherwise the ceiling of a tenth |
| StreakDisplay.FlameCountBounds | components/habits/StreakDisplay.tsx:41 | for a streak of zero or more, between none and three flames, none exactly for zero |
| StreakDisplay.Label | components/habits/StreakDisplay.tsx:85-89 | "day streak" exactly for one, "days streak" otherwise |
| StreakDisplay.Render | components/habits/StreakDisplay.tsx:35-92 | fails exactly when the flame array would get a negative length; otherwise the flames, the colour, the count exactly when positive, the label exactly when asked for |
| StreakDisplay.CountIffFlames | components/habits/StreakDisplay.tsx:46-84 | the count shows exactly when at least one flame does |
| StreakDisplay.Celebration | components/habits/StreakDisplay.tsx:95-124 | nothing below 7, else the streak as the heading's number |
| StreakDisplay.CelebrationIffWarm | components/habits/StreakDisplay.tsx:27-124 | the celebration shows exactly when the colour is not low, and then at least one flame burns |
| Storage.Prefixed | lib/storage.ts:80-85 | exactly the entries whose key starts with "habitTracker_", values kept |
| Storage.Unprefixed | lib/storage.ts:60-65 | exactly the entries whose key does not start with "habitTracker_", values kept |
| Storage.PrefixSplit | lib/storage.ts:56-89 | the tracker part and the rest are disjoint and together make the whole storage |
| Storage.PrefixInjective | lib/storage.ts:14 | distinct keys are stored under distinct prefixed keys |
| Storage.KeyIsPrefixed | lib/storage.ts:30 | every key the wrapper writes starts with the prefix, so clearing and exporting cover it |
| Storage.Get | lib/storage.ts:10-21 | null exactly without a window, for a missing or empty item, or when parsing fails; otherwise the parsed item |
| Storage.SetThenGet | lib/storage.ts:10-36 | reading back a written value gives the value, when the codec round-trips and the text is non-empty |
| Storage.SetLeavesOtherKeys | lib/storage.ts:26-36 | writing one key leaves what every other key reads |
| Storage.GetReadsPrefixed | lib/storage.ts:10-21 | a read sees only tracker keys |
| Storage.GetAfterClear | lib/storage.ts:10-71 | after clearing, every read gives null |
| Storage.Entries | lib/storage.ts:98 | `Object.entries` throws exactly on null; an object yields its fields |
| Storage.Imports | lib/storage.ts:98-102 | exactly the prefixed keys with string values, with those strings |
| Storage.ParsedEntries | lib/storage.ts:96-98 | the entries exist exactly when the text parses to something other than null |
| Storage.ImportedSoFarStart | lib/storage.ts:98-102 | before the loop nothing is imported |
| Storage.ImportedSoFarStep | lib/storage.ts:99-101 | one entry of the loop writes its key exactly when it is prefixed and a string |
| Storage.ImportedSoFarEnd | lib/storage.ts:98-102 | after the loop every qualifying entry is imported |
| Storage.AsObject | lib/storage.ts:88 | the exported object has exactly the data's keys with their strings |
| Storage.ClearExportImport | lib/storage.ts:56-109 | clearing and then importing an export restores the storage exactly |
| Storage.Browser.constructor | lib/storage.ts:11 | the browser starts with the given window flag, write flag and items |
| Storage.Browser.GetStorageItem | lib/storage.ts:10-21 | returns Get of the current items |
| Storage.Browser.SetStorageItem | lib/storage.ts:26-36 | true exactly with a window, a serialisable value and a writable storage; then the prefixed key holds the text, otherwise nothing changes |
| Storage.Browser.RemoveStorageItem | lib/storage.ts:41-51 | true exactly with a window; then the prefixed key is gone, otherwise nothing changes |
| Storage.Browser.ClearAllStorage | lib/storage.ts:56-71 | true exactly with a window; then the loop leaves exactly the non-tracker entries |
| Storage.Browser.ExportData | lib/storage.ts:76-89 | the loop collects exactly the tracker entries, none without a window |
| Storage.Browser.ImportData | lib/storage.ts:94-109 | true exactly when the text parses to a non-null value and there is nothing to write or the storage can be written; then the qualifying entries are written over the old items, otherwise nothing changes |
| ChatInterface.ReplyText | components/ai/ChatInterface.tsx:183-203 | every canned reply is non-empty |
| ChatInterface.ReplyTextInjective | components/ai/ChatInterface.tsx:183-203 | the five replies are five different texts |
| ChatInterface.Classify | components/ai/ChatInterface.tsx:183-203 | each reply is chosen exactly when its keyword group is the first one found in the lower-cased message |
| ChatInterface.FallbackResponse | components/ai/ChatInterface.tsx:183-203 | always one of the canned replies |
| ChatInterface.FallbackIgnoresCase | components/ai/ChatInterface.tsx:184 | upper- or lower-casing the message picks the same reply |
| ChatInterface.NoKeywordDefault | components/ai/ChatInterface.tsx:202 | a message with no keyword gets the default reply |
| ChatInterface.MessageToSend | components/ai/ChatInterface.tsx:33-35 | nothing is sent exactly while loading or for all-whitespace input; otherwise the trimmed, non-empty text |
| ChatRoute.ReplyText | app/api/chat/route.ts:76-100 | every canned reply is non-empty and differs from the error reply |
| ChatRoute.ReplyTextInjective | app/api/chat/route.ts:76-100 | the six replies are six different texts |
| ChatRoute.Classify | app/api/chat/route.ts:76-100 | each reply is chosen exactly when its keyword group is the first found, in the order streak, habit, mood, tips, thanks |
| ChatRoute.FallbackResponse | app/api/chat/route.ts:76-100 | always one of the canned replies, never the error reply |
| ChatRoute.HabitBeatsHelp | app/api/chat/route.ts:83-93 | a message naming both a habit and help never gets the tips reply |
| ChatRoute.FallbackIgnoresCase | app/api/chat/route.ts:77 | shouting the message picks the same reply |
| ChatRoute.Respond | app/api/chat/route.ts:4-74 | an error with status 500 exactly for an unreadable request, an unreachable model, a non-quota rejection, or a fallback needed for a message that is not a string; the quota fallback is flagged; otherwise the model's non-empty answer or the fallback reply |
| ChatRoute.QuotaYieldsFlaggedFallback | app/api/chat/route.ts:39-51 | a quota rejection of a readable message yields a flagged canned reply, never the error reply |
| ChatRoute.NeverEmpty | app/api/chat/route.ts:4-74 | every response carries a non-empty message |
| StreakCalculator.DayBeforeIsStrictWeakOrder | lib/utils/streakCalculator.ts:47 | the default string order on `YYYY-MM-DD` dates is a strict weak order on days |
| StreakCalculator.LastIsMax | lib/utils/streakCalculator.ts:10 | the last of the sorted dates is the newest completion |
| MoodStore.DistributionIs | lib/stores/moodStore.ts:139-149 | a record with exactly the five mood keys, each holding that mood's count, is the distribution |
| MoodStore.CountMoodStep | lib/stores/moodStore.ts:147-149 | one more entry raises the count of its mood by one and leaves the others |
| MoodStore.TallyKeys | lib/stores/moodStore.ts:166-168 | a date has a record exactly when it has been seen |
| MoodStore.BestDayIsFirst | lib/stores/moodStore.ts:173-184 | an entry whose date has the best average is matched or preceded by an entry of the best day: ties go to the date logged first |
| MoodStore.BestOfDates | lib/stores/moodStore.ts:173-184 | the scan over the first-seen dates finds none exactly for an empty history, and otherwise an occurring date with the highest average |
| Sorting.SortPermutes | lib/stores/moodStore.ts:70 | the stable sort is a permutation |
| Sorting.Sort | lib/stores/moodStore.ts:70 | the stable sort keeps the length; permutation and order are the lemmas around it |
| Sorting.SortSorted | lib/stores/moodStore.ts:70 | with a consistent comparator, no element of the result is strictly before an earlier one |
| Sorting.SortHead | lib/stores/moodStore.ts:70 | the head of the sorted list is a least element, and every element before it in the input is strictly after it (stability) |
| Sorting.SortByRankOrdered | components/ai/InsightsPanel.tsx:41 | sorting by a numeric key orders the key ascending |
| Sorting.SortByRank3 | app/api/predict/route.ts:115-118 | sorting by a rank of 0, 1 or 2 gives the rank-0 elements, then rank 1, then rank 2, each in input order |
| Arith.Round | lib/stores/moodStore.ts:101 | `Math.round`: the integer within half a unit below and strictly less than half above |
| Arith.RoundTenth | lib/stores/moodStore.ts:101 | a whole number of tenths, within 0.05 below and at most 0.05 above the value: the nearest tenth, halves up |
| Arith.RoundTenthWithin | lib/stores/moodStore.ts:101 | rounding to one decimal keeps a value between two whole bounds |
| Arith.RoundShift | lib/utils/streakCalculator.ts:196 | adding a whole number before `Math.round` adds it to the result |
| Text.ToLower | components/ai/ChatInterface.tsx:184 | `toLowerCase` on ASCII letters: same length, each capital replaced by its small letter |
| Text.ToLowerIdempotent | components/ai/ChatInterface.tsx:184 | lowering twice is lowering once |
| Text.ToLowerOfUpper | components/ai/ChatInterface.tsx:184 | upper-casing before lowering makes no difference |
| Text.Contains | components/ai/ChatInterface.tsx:186 | `includes`: true exactly when the text occurs at some position |
| Text.Trim | components/ai/ChatInterface.tsx:35 | `trim`: an infix of the input with no white space at either end; TrimSlice states which infix |
| Text.TrimSlice | components/ai/ChatInterface.tsx:35 | the trimmed text is the infix left after dropping an all-white-space prefix and an all-white-space suffix |
| Text.TrimEmpty | components/ai/ChatInterface.tsx:33 | trimming gives the empty text exactly for all-white-space input |
| Text.NatToString | app/api/predict/route.ts:69 | the decimal digits of a number, without a leading zero |
| Text.NatToStringRoundTrip | app/api/predict/route.ts:69 | reading the digits back gives the number |
| Text.NatToStringInjective | app/api/predict/route.ts:69 | distinct numbers print differently |

## Left out

- `getMonthDates` (lib/utils/dateUtils.ts:109-122) is not modelled. Its loop discards the result of `addDays`, so it never advances and never terminates.
- Date parsing and formatting by date-fns and `Date` are not modelled. A date string is its day number, and the parser is a function returning an `Option`. The library signals an invalid date with an Invalid Date value rather than an exception. `isSameDay` and `isToday` see the resulting NaN difference and are modelled with it (false), `isPast` compares NaN > 0 (false), and `getDateDiff` is covered by the line below.
- DateDiff: `getDateDiff` on an unparseable date really returns NaN from `differenceInDays` (its catch is never reached); the model returns 0 there, the value lib/utils/__tests__/dateUtils.test.ts:78-81 expects, so the NaN result is not modelled.
- The rendering of `formatDate` and `formatDayName` is library output. Only their failure path is modelled.
- Time zones are not modelled. `getTodayStr` reads local time while the routes and the streak predictor read UTC; the model uses a single `today`.
- The clock, `Date.now()` and `Math.random()` are not modelled. "Today", "now" and fresh ids are parameters.
- The code compares `YYYY-MM-DD` strings with `sort()`, `>=` and `<=`. The model compares day numbers. This assumes four-digit years, so that string order is day order; no lemma about the text encoding is proved.
- The store machinery is not modelled: zustand `persist`, React hooks and memoisation, animation, styling and dialogs.
- The purely presentational files are not modelled: the layout, navigation, forms, cards, mood selector and the other pages.
- Request plumbing is not modelled: `request.json()`, `NextResponse`, the environment lookup, the prompt text and the Gemini `fetch`. The chat route receives the parsed body and the upstream outcome as parameters. The POST handlers of the insights and predict routes, including the `timeRange = 30` default, are not modelled.
- `ChatInterface`: the request that `handleSend` sends, its delay, scrolling and state updates are not modelled. Only the blank-input guard is.
- JSON is not modelled; it is an opaque codec passed in as functions. `JSON.stringify` with indentation is not modelled: `exportData` returns the map it would print.
- `Storage.Browser.SetStorageItem`: a failing `setItem` (full or disabled storage) is modelled as a constant `writable` flag. A storage that refuses some writes and accepts others is not modelled.
- `Storage.Browser.GetStorageItem`: a `getItem` that throws is not modelled. Only a missing item, an empty item and a parse failure are.
- `Storage.Browser.RemoveStorageItem`: `removeItem` is modelled as never throwing.
- `Storage.Browser.ClearAllStorage`: the loop visits the keys in an arbitrary order, because `Object.keys` order is not modelled. The result does not depend on the order. The same holds for `ExportData` and `ImportData`.
- Floating-point arithmetic is not modelled. Rates, means, bonuses and `Math.round` are modelled on Dafny reals, with round(x) = floor(x + 1/2).
- `toLowerCase` and `toUpperCase` are modelled on ASCII letters only. Unicode case mapping is not modelled.
- `StreakDisplay.Render`: the streak is modelled as an integer. Fractional streaks are not modelled. Sizes and animation are not modelled.
- `InsightsPanel.ShowsNeedsAttention`: the object identity test `worstHabit !== bestHabit` is modelled by position in the sorted list. Every entry is a fresh object, so this is exact.
- `Predict.PredictHabit`: the `habit.completedDates || []` default for a habit without a list is not modelled; every modelled habit carries a list.
- `Predict.HistoricalCompletionRate`: the percentage is bounded by 100 only when at most thirty completions fall in the window. A list that repeats a day can exceed 100.
- `Predict.ContinuationProbability`: the contract states the 30..95 bounds, and ContinuationMonotone states monotonicity. The exact formula is stated only by the body.
- `recentHabits` in app/api/insights/route.ts:26 is computed and never used, so it is not modelled.
- Test assertions that contradict the streak code as written are not used as specifications.

## Findings

| source | as written | input that shows it | evidently intended | confidence | as-written member | corrected member |
|---|---|---|---|---|---|---|
| lib/utils/streakCalculator.ts:17-36 | after counting today the walk looks up `getNextDay(getPrevDay(today))`, which is today again, so today is counted twice; when the newest completion is yesterday the first look-up (today) fails and the streak is 0 | completedDates = [today]: current streak 2, longest streak 1; completedDates = [yesterday]: current streak 0 | the number of consecutive completed days ending today, or ending yesterday when today is not yet done, never above the longest streak | high (proved; not executed) | StreakCalculator.TodayCountedTwice, Predict.EnginesCompared | Predict.ComputeStreak, Predict.PredictedWithinLongest |
| components/ai/StreakPredictor.tsx:40-61 | the high-risk and medium-risk rules are separate `if` blocks, and every high condition implies a medium one, so the later block overwrites `high` with `medium` and adds a second factor | streak 14, not done today, done yesterday: risk medium with two factors | a first-match chain, as in the prediction route: high for this input, with one factor | high (proved; not executed) | StreakPredictor.AssessOverwriting | Predict.RuleChain |
