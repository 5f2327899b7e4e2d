# Nutrition tracker: a Dafny model of its accounting core

The nutrition tracker is a Next.js application. A signed-in user keeps a list of
foods, each with calories and protein per unit. The user logs consumptions
(a food and a quantity, dated when logged) and keeps a history of daily goals.
The app shows:

- today's totals against the goal;
- a progress tracker over a range of days (the current week, the last 7 or
  30 days, or a custom range);
- statistics cards, a collapsed summary, day circles and a day detail dialog.

This project models the logic behind those views and the API routes that serve
them. Each model follows the form of its source:

- **Routes.** Each route handler is a method on an in-memory `Store.Database`.
  The database holds the food, consumption and goal tables and the auth tables.
  The session is an optional user id.
- **Stateful components.** Each component with `useState` handlers is a class
  whose methods are the handlers. Network responses, random draws and "today"
  are parameters.
- **Pure components.** Pure components and pure computations are functions.
  Their properties are proved as contracts and lemmas.

Calendar days are integers counted from 1970-01-01, which was a Thursday.
A `yyyy-MM-dd` string stands for its day. Instants are milliseconds since the
epoch, and the local zone is a fixed offset `tz`.

Numbers are exact reals. A percentage computed without a zero guard yields a
`JsNumber`, which can be `Finite`, `PosInf`, `NegInf` or `NaN`. This keeps
the source's missing guard visible in the model.

The modules:

| module | models |
|---|---|
| `Records`, `Tables` | the entities, the `include: { food: true }` join, `where` filters |
| `Store` | the database the routes update in place |
| `Bucketing` | the per-day `reduce` both history routes share |
| `HistoryApi`, `LegacyHistory`, `MockHistory` | `/api/history`, `/history`, `/api/mock-history` |
| `ConsumptionApi`, `DailyGoalApi`, `FoodApi`, `UserDeleteApi` | the table routes |
| `Days`, `ProgressTracker`, `LegacyTracker` | the two progress trackers |
| `StatsCard`, `CollapsedSummary`, `DayCircle`, `DayDetail` | the tracker's display parts |
| `NutritionTracker`, `ManageFoods`, `GoalEditor`, `ConsumptionForm` | the dashboard components |
| `JsNum`, `Calendar`, `Parsing`, `Sorting` | `Math.round`/division, date-fns arithmetic, `parseInt`/`parseFloat`, `Array.prototype.sort` |

## Model

| member | source | states |
|---|---|---|
| JsNum.Div | src/components/progress-tracker/WeeklyProgressTracker.tsx:274-275 | an unguarded division is finite exactly when the divisor is nonzero, NaN for 0/0, and an infinity otherwise |
| JsNum.Round | src/components/progress-tracker/StatsCard.tsx:20 | `Math.round` gives the integer within one half of the value, a half rounded up |
| Calendar.StartOfWeek | src/components/progress-tracker/WeeklyProgressTracker.tsx:88 | the week start is the Monday on or before the day, less than 7 days back |
| Calendar.LocalDayShift | src/app/api/mock-history/route.ts:15 | `subDays(t, k)` moves the local day exactly `k` days back |
| Calendar.InLocalDay | src/app/api/history/route.ts:40-41 | an instant lies between `startOfDay` and `endOfDay` of a day exactly when it falls on that day |
| Parsing.ParseIntNatToString | src/app/api/history/route.ts:25 | `parseInt` reads back every count written in decimal |
| Parsing.ParseInt | src/app/api/history/route.ts:25 | `parseInt` in base 10 is NaN exactly when no digit follows the leading blanks and the sign, and is negative only after a `-`; see also `ParseIntNatToString` and `ParseNeedsADigit` |
| Parsing.ParseFloat | src/components/ConsumptionForm.tsx:24 | `parseFloat` reads a number wherever `parseInt` does, and is negative only after a `-`; see also `ParseFloatNatToString` and `ParseNeedsADigit` |
| Parsing.ParseNeedsADigit | src/components/ManageFoods.tsx:115-116 | text without a digit is NaN for `parseInt` and `parseFloat` |
| Sorting.SortBy | src/components/progress-tracker/WeeklyProgressTracker.tsx:209 | the sort on dates returns a permutation of the days in ascending date order |
| Sorting.SortedIsUnchanged | src/components/progress-tracker/WeeklyProgressTracker.tsx:209 | sorting days already in date order leaves them unchanged |
| Sorting.SortDescending | src/components/progress-tracker/WeeklyProgressTracker.tsx:207-213 | sorting days whose dates strictly decrease reverses them |
| Records.Join | src/app/api/consumption/route.ts:23-25 | each returned row pairs a consumption of the input with the food its `foodId` names; all consumptions are kept when every food exists |
| Records.JoinKeeps | src/app/api/history/route.ts:64-66 | every consumption whose food exists is among the joined rows |
| Tables.Filter | src/app/api/food/route.ts:53-57 | a `where` keeps exactly the rows satisfying it |
| Tables.FilterAppend | src/app/api/food/route.ts:53-57 | filtering a table with a row appended filters the table and that row separately |
| Tables.FilterCounts | src/app/api/food/route.ts:53-57 | a `where` keeps each satisfying row as often as it is stored and drops every other row |
| Bucketing.KeysInOrder | src/app/history/route.ts:30-38 | the dictionary keys are the rows' days, each once, in order of first appearance |
| Bucketing.EntriesFor | src/app/history/route.ts:40-41 | each entry holds the sums of `perUnit * quantity` over the rows of its day |
| Bucketing.Aggregate | src/app/api/history/route.ts:70-84 | the in-place fold over the rows yields exactly the per-day buckets |
| Bucketing.AmountOnOtherDay | src/app/api/history/route.ts:70-84 | a day on which no row falls contributes nothing, so no zero entries are created for it |
| Bucketing.BucketsPartitionDays | src/app/api/history/route.ts:70-84 | there is exactly one entry per distinct day of the rows |
| Bucketing.FirstAppearance | src/app/history/route.ts:46 | `Object.values` lists the entries in order of their days' first appearance |
| Bucketing.BucketsConserve | src/app/api/history/route.ts:80-81 | the entries' totals add up to the total over all rows |
| Bucketing.SumEntriesSorted | src/app/api/history/route.ts:87-89 | sorting the entries by date keeps the grand total |
| HistoryApi.DaysFromParam | src/app/api/history/route.ts:21-32 | `days` is the parsed parameter when it is a positive integer, and 30 otherwise |
| HistoryApi.DaysOfNumeral | src/app/api/history/route.ts:24-29 | any positive count given as `days` is used as it is |
| HistoryApi.History | src/app/api/history/route.ts:7-99 | the route answers 401 exactly without a session, and otherwise either the entries or 500 |
| HistoryApi.Get | src/app/api/history/route.ts:14-91 | the step-by-step handler gives the answer `History` specifies |
| HistoryApi.WindowOf | src/app/api/history/route.ts:34-53 | the start is the first millisecond of a local day and the end the last millisecond of one; the end is Invalid Date exactly when both dates are given and the end date is invalid |
| HistoryApi.DefaultWindowDays | src/app/api/history/route.ts:36-52 | without both dates the window is exactly the `days` local days ending today |
| HistoryApi.CustomWindowDays | src/app/api/history/route.ts:38-46 | with two valid dates the window is the local days from the start date's to the end date's |
| HistoryApi.CustomWindowUtc | src/app/api/history/route.ts:38-41 | on a UTC server `startDate=a&endDate=b` selects exactly days a to b |
| HistoryApi.InvalidStartKeepsEnd | src/app/api/history/route.ts:47-50 | an invalid start date falls back to the default start and keeps the end date's day |
| HistoryApi.InvalidEndFails | src/app/api/history/route.ts:41-50 | an invalid end date is not repaired; the query fails and the route answers 500 |
| HistoryApi.WindowRowsAreTheUsers | src/app/api/history/route.ts:56-67 | exactly the session user's consumptions dated inside the window are aggregated |
| HistoryApi.WindowCountsOnce | src/app/api/history/route.ts:56-67 | when every food exists, each consumption of the user in the window is aggregated exactly as often as it is stored, and no other consumption is |
| HistoryApi.HistoryAscending | src/app/api/history/route.ts:87-89 | the entries come in strictly ascending date order |
| HistoryApi.HistoryEntryIsADay | src/app/api/history/route.ts:70-84 | each entry is a day of some row and holds the sums over that day's rows |
| HistoryApi.HistoryRowHasEntry | src/app/api/history/route.ts:70-84 | every row's day has an entry |
| HistoryApi.HistoryConserves | src/app/api/history/route.ts:70-89 | the entries' calories and protein add up to the totals over all rows |
| LegacyHistory.LegacyResponse | src/app/history/route.ts:6-53 | the older route answers 401 exactly without a session, and the entries otherwise |
| LegacyHistory.Get | src/app/history/route.ts:13-46 | the handler with the cutoff moved back in place gives the `LegacyResponse` answer |
| LegacyHistory.RecentRowsAreTheUsers | src/app/history/route.ts:14-27 | exactly the user's consumptions from seven days before now onwards are summed, with no upper bound |
| MockHistory.MockCalories | src/app/api/mock-history/route.ts:21 | mock calories are whole numbers from 200 to 2000 |
| MockHistory.MockProtein | src/app/api/mock-history/route.ts:22 | mock protein values are whole numbers from 20 to 120 |
| MockHistory.Get | src/app/api/mock-history/route.ts:4-26 | the loop counting down emits the requested number of entries (30 by default, none for NaN or a count below 1), for consecutive days ending today, oldest first, with values in bounds |
| Days.ResolveGoal | src/components/progress-tracker/WeeklyProgressTracker.tsx:61-79 | the goal is 2000/120 when the request fails or returns null; otherwise the fetched goal, with a zero field replaced by its default; both fields are nonzero |
| Days.FirstMatch | src/components/progress-tracker/WeeklyProgressTracker.tsx:146 | `find` returns the first entry with the date, or nothing when no entry has it |
| Days.DayOfFillsGaps | src/components/progress-tracker/WeeklyProgressTracker.tsx:146-158 | a day takes the first matching entry's values, or zeros without one, and always carries the goal |
| Days.FillForward | src/components/progress-tracker/WeeklyProgressTracker.tsx:142-159 | the forward loop pushes the gap-filled days `start`, `start + 1`, … in that order |
| Days.FillBackward | src/components/progress-tracker/WeeklyProgressTracker.tsx:187-204 | the backward loop pushes the gap-filled days today, today − 1, … in that order |
| Days.UniformGoals | src/components/progress-tracker/WeeklyProgressTracker.tsx:262-269 | days that share one goal add up to that goal times their number |
| Days.Percent | src/components/progress-tracker/WeeklyProgressTracker.tsx:274-275 | the percentage is total/goalTotal·100 for a nonzero goal total and not finite for a zero one |
| Days.LastSeven | src/components/progress-tracker/WeeklyProgressTracker.tsx:393 | `slice(-7)` keeps the last seven days in order, or all of them when there are fewer |
| Days.CustomDayCount | src/components/WeeklyProgressTracker.tsx:44-47 | the custom label counts the days from one date to the other inclusive, in either order |
| ProgressTracker.RangeDays | src/components/progress-tracker/WeeklyProgressTracker.tsx:137-213 | the range's days are consecutive from its first day, strictly ascending, gap-filled and all carrying the goal |
| ProgressTracker.BuildDays | src/components/progress-tracker/WeeklyProgressTracker.tsx:135-213 | every route through the loops, the sort and the reverse produces exactly `RangeDays` |
| ProgressTracker.ForwardDays | src/components/progress-tracker/WeeklyProgressTracker.tsx:142-209 | the days the forward loop pushes for the current week or a custom range are, once sorted, exactly `RangeDays` |
| ProgressTracker.BackwardDays | src/components/progress-tracker/WeeklyProgressTracker.tsx:187-212 | the days the backward loop pushes, once reversed, are exactly the trailing range's `RangeDays` |
| ProgressTracker.AscendingIsSorted | src/components/progress-tracker/WeeklyProgressTracker.tsx:208-209 | the sort leaves the current week and a custom range as pushed |
| ProgressTracker.DescendingSortsReversed | src/components/progress-tracker/WeeklyProgressTracker.tsx:187-209 | a custom range missing a date is pushed newest first, and the sort reverses it |
| ProgressTracker.CurrentWeekRange | src/components/progress-tracker/WeeklyProgressTracker.tsx:137-143 | the current week is the seven days Monday to Sunday containing today, in weekday order |
| ProgressTracker.TrailingRange | src/components/progress-tracker/WeeklyProgressTracker.tsx:185-212 | the week and month ranges (and a custom range missing a date) are the last 7 or 30 days ending today |
| ProgressTracker.CustomRange | src/components/progress-tracker/WeeklyProgressTracker.tsx:160-184 | a custom range runs from its start to its end inclusive and is empty when the start is after the end |
| ProgressTracker.Relevant | src/components/progress-tracker/WeeklyProgressTracker.tsx:256-259 | the current week counts only the days up to today; other ranges count every day |
| ProgressTracker.CalculateStats | src/components/progress-tracker/WeeklyProgressTracker.tsx:240-296 | totals and goal totals are over the relevant days; averages are over their number (1 when none); the percentages are unguarded ratios of the totals |
| ProgressTracker.GoalTotal | src/components/progress-tracker/WeeklyProgressTracker.tsx:257-269 | when every day carries the same goal, the goal total over the relevant days is their number times that goal |
| ProgressTracker.PercentDefined | src/components/progress-tracker/WeeklyProgressTracker.tsx:271-275 | with at least one relevant day and a nonzero goal carried by every day, both percentages are finite numbers |
| ProgressTracker.CurrentWeekRelevant | src/components/progress-tracker/WeeklyProgressTracker.tsx:256-259 | in the current week the statistics cover Monday through today |
| ProgressTracker.WednesdayExample | src/components/progress-tracker/WeeklyProgressTracker.tsx:240-296 | on a Wednesday, 1800 + 2200 + 500 kcal against 2000 a day is 75% over 3 days |
| ProgressTracker.RangeLabel | src/components/progress-tracker/WeeklyProgressTracker.tsx:36-54 | Monday to Sunday of today's week, the trailing day count, the custom dates with the inclusive day count, or no text for a custom range missing a date; each kind exactly for its range |
| ProgressTracker.LabelMatchesDays | src/components/progress-tracker/WeeklyProgressTracker.tsx:36-54 | the range label names the built days: the week's first and last day, the trailing count, or the custom dates with the number of days built |
| ProgressTracker.VisibleDays | src/components/progress-tracker/WeeklyProgressTracker.tsx:393 | the circles show every day of the current week; for other ranges they show the last seven days in order, or all days when there are fewer |
| ProgressTracker.HistoryRequest | src/components/progress-tracker/WeeklyProgressTracker.tsx:101-109 | dates from the range's first day exactly for the current week and a custom range with both dates, and otherwise the range's day count ending today |
| ProgressTracker.HistoryData | src/components/progress-tracker/WeeklyProgressTracker.tsx:111-131 | the history when it arrived, else the mock history when that arrived, else nothing |
| ProgressTracker.TrailingRequestCoversDays | src/components/progress-tracker/WeeklyProgressTracker.tsx:101-109 | for the trailing ranges, the history route is asked for exactly the days the tracker shows |
| ProgressTracker.RangeRequestCoversDays | src/components/progress-tracker/WeeklyProgressTracker.tsx:103-106 | for the current week and a custom range, the route is asked for the days shown when the server zone is UTC or east of it |
| ProgressTracker.Tracker.constructor | src/components/progress-tracker/WeeklyProgressTracker.tsx:18-33 | the initial state: no days, loading, current week, no dates, details closed |
| ProgressTracker.Tracker.FetchWeekData | src/components/progress-tracker/WeeklyProgressTracker.tsx:56-221 | the handler sends the request for the range; the days stored are `RangeDays` for the resolved goal and the history (mock on failure); nothing else changes |
| ProgressTracker.Tracker.HandleDayClick | src/components/progress-tracker/WeeklyProgressTracker.tsx:223-232 | clicking a day stores its date and figures and opens the detail; every other field keeps its value |
| ProgressTracker.Tracker.CloseDetails | src/components/progress-tracker/WeeklyProgressTracker.tsx:234-238 | closing hides the detail and clears the selection; every other field keeps its value |
| ProgressTracker.Tracker.HandleRangeChange | src/components/progress-tracker/WeeklyProgressTracker.tsx:298-309 | changing the range selects it and closes the menu; choosing custom with no dates seeds a week ago to today; the days, loading, the detail, the selection and the expand toggle keep their values |
| ProgressTracker.Tracker.HandleCustomRangeSubmit | src/components/progress-tracker/WeeklyProgressTracker.tsx:311-315 | submitting refetches exactly when both dates are set, and loading has then ended; without a refetch nothing changes, and the detail, the selection and the toggles never change |
| ProgressTracker.Tracker.Stats | src/components/progress-tracker/WeeklyProgressTracker.tsx:322 | the statistics the cards show are the sums of consumption and goals over the days that count for the selected range, and all zeros with no days |
| ProgressTracker.SeededCustomRange | src/components/progress-tracker/WeeklyProgressTracker.tsx:303-307 | the seeded custom range has eight days ending today |
| LegacyTracker.RandomValue | src/components/WeeklyProgressTracker.tsx:117-118 | `Math.floor(r * goal)` with `r` in [0, 1) is a whole number from 0 up to, not including, a positive goal |
| LegacyTracker.RandomEntry | src/components/WeeklyProgressTracker.tsx:115-127 | `Math.floor(Math.random() * goal)` gives a whole number from 0 up to, not including, a positive goal |
| LegacyTracker.RandomHistory | src/components/WeeklyProgressTracker.tsx:113-128 | the last-resort history has 30 entries dated from 29 days ago to today |
| LegacyTracker.RandomHistoryBounds | src/components/WeeklyProgressTracker.tsx:113-153 | every random entry is a whole number below its positive goal |
| LegacyTracker.LegacyHistoryData | src/components/WeeklyProgressTracker.tsx:87-153 | the history is the route's array; otherwise the mock history; otherwise empty when the route gave a non-array and the mock answered not ok; otherwise random |
| LegacyTracker.LegacyDays | src/components/WeeklyProgressTracker.tsx:160-207 | the trailing ranges come out oldest first ending today; a custom range comes out newest first from its end date; every day carries the goal |
| LegacyTracker.BuildLegacyDays | src/components/WeeklyProgressTracker.tsx:158-207 | the legacy loops and the reverse produce exactly `LegacyDays` |
| LegacyTracker.LegacyTrailingAgrees | src/components/WeeklyProgressTracker.tsx:185-207 | for the last 7 and 30 days, the legacy sequence is the current tracker's |
| LegacyTracker.LegacyCustomReversed | src/components/WeeklyProgressTracker.tsx:160-207 | a legacy custom range is the chronological range reversed |
| LegacyTracker.LegacyCustomExample | src/components/WeeklyProgressTracker.tsx:160-207 | days 10 to 12 come out as 12, 11, 10 |
| LegacyTracker.WeeklyAverage | src/components/WeeklyProgressTracker.tsx:233-270 | every day counts, future days included; averages are over the number of days; the percentages are unguarded |
| LegacyTracker.StatsAgreeOutsideCurrentWeek | src/components/WeeklyProgressTracker.tsx:233-270 | outside the current week, the current tracker's statistics equal the legacy ones |
| LegacyTracker.LegacyRangeLabel | src/components/WeeklyProgressTracker.tsx:38-50 | the label is "last 7" or "last 30" days; the custom dates with the inclusive day count exactly when both are set; and empty for a custom range missing a date |
| LegacyTracker.LegacyLabelCount | src/components/WeeklyProgressTracker.tsx:44-47 | the label's count ignores the dates' order, so a reversed range is labelled with days although none are built |
| LegacyTracker.Tracker.constructor | src/components/WeeklyProgressTracker.tsx:21-35 | the initial state: no days, loading, the week range |
| LegacyTracker.Tracker.FetchWeekData | src/components/WeeklyProgressTracker.tsx:53-214 | the days stored are `LegacyDays` for the resolved goal and the history after its fallbacks |
| LegacyTracker.Tracker.HandleDayClick | src/components/WeeklyProgressTracker.tsx:216-225 | clicking a day stores its date and figures and opens the detail; every other field keeps its value |
| LegacyTracker.Tracker.CloseDetails | src/components/WeeklyProgressTracker.tsx:227-231 | closing hides the detail and clears the selection; every other field keeps its value |
| LegacyTracker.Tracker.HandleRangeChange | src/components/WeeklyProgressTracker.tsx:272-283 | changing the range selects it and closes the menu; custom with no dates seeds a week ago to today; the days, loading, the detail, the selection and the totals toggle keep their values |
| LegacyTracker.Tracker.HandleCustomRangeSubmit | src/components/WeeklyProgressTracker.tsx:285-289 | submitting refetches exactly when both dates are set, and loading has then ended; without a refetch nothing changes, and the detail, the selection and the toggles never change |
| LegacyTracker.Tracker.Circles | src/components/WeeklyProgressTracker.tsx:522 | the circles are exactly the last seven days in order, or all days when there are fewer, whatever the range |
| LegacyTracker.Tracker.Stats | src/components/WeeklyProgressTracker.tsx:296 | the statistics the cards show count every stored day, future ones included, with the sums of consumption and goals over them |
| StatsCard.FiguresOf | src/components/progress-tracker/StatsCard.tsx:12-18 | the calorie card reads the calorie fields and any other card reads the protein fields |
| StatsCard.DisplayValue | src/components/progress-tracker/StatsCard.tsx:20 | the figure is the rounded total in totals mode and the rounded average otherwise |
| StatsCard.RingFill | src/components/progress-tracker/StatsCard.tsx:49 | the ring fill is percent/100 capped at 1, and NaN stays NaN |
| StatsCard.View | src/components/progress-tracker/StatsCard.tsx:12-71 | the card shows the selected figures; the unit is "g" exactly for protein; the footer is the target over the days in totals mode and the total otherwise |
| StatsCard.PercentIgnoresToggle | src/components/progress-tracker/StatsCard.tsx:49-56 | the toggle never changes the percentage or the ring |
| StatsCard.TotalShownEitherWay | src/components/progress-tracker/StatsCard.tsx:68-71 | the totals-mode figure is the averages-mode footer total |
| CollapsedSummary.View | src/components/progress-tracker/CollapsedSummary.tsx:12-30 | the summary passes the percentages through; it shows per-day figures exactly in averages mode, with the rounded total or average goals |
| CollapsedSummary.SummaryMatchesCards | src/components/progress-tracker/CollapsedSummary.tsx:12-18 | the summary shows the same figures as the two cards |
| CollapsedSummary.PercentsIgnoreToggle | src/components/progress-tracker/CollapsedSummary.tsx:29-30 | the percentages do not depend on the toggle |
| CollapsedSummary.TotalGoalIsDailyGoalTimesDays | src/components/progress-tracker/CollapsedSummary.tsx:20-26 | over the tracker's statistics, the total goal is the daily goal times the days counted |
| DayCircle.GuardedPercent | src/components/progress-tracker/DayCircle.tsx:25-26 | the percentage is consumed/goal·100 for a positive goal and 0 otherwise |
| DayCircle.WeekdayLetter | src/components/progress-tracker/DayCircle.tsx:16-19 | each weekday maps to one of the letters M T W F S |
| DayCircle.Label | src/components/progress-tracker/DayCircle.tsx:16-19 | the current week labels by position (nothing past the seventh); other ranges use the day's own weekday letter |
| DayCircle.CurrentWeekLabels | src/components/progress-tracker/DayCircle.tsx:16-19 | in the current week, the label chosen by position is the day's own weekday letter |
| DayCircle.Click | src/components/progress-tracker/DayCircle.tsx:28-32 | a click forwards the day exactly when it is not in the future |
| DayCircle.RingShade | src/components/progress-tracker/DayCircle.tsx:72 | the ring is dim exactly for a future day, and otherwise light exactly once 100% is reached |
| DayCircle.RingFill | src/components/progress-tracker/DayCircle.tsx:71 | the fill is percent/100 capped at 1 |
| DayCircle.View | src/components/progress-tracker/DayCircle.tsx:14-32 | the circle combines the label, the future flag and both rings' fills |
| DayCircle.LightMeansGoalReached | src/components/progress-tracker/DayCircle.tsx:71-72 | for a past day with a positive goal, the ring is light exactly when full, exactly when the goal is reached |
| DayDetail.RoundedPercent | src/components/progress-tracker/DayDetail.tsx:21-22 | the percentage is rounded with no zero guard: finite exactly for a nonzero goal, NaN for 0/0 |
| DayDetail.View | src/components/progress-tracker/DayDetail.tsx:19-55 | nothing is shown when closed; otherwise rounded consumption against the goals, with bars capped at 100% |
| DayDetail.BarsCapped | src/components/progress-tracker/DayDetail.tsx:55 | a bar is never wider than full, and it is full once the percentage reaches 100 |
| DayDetail.DetailAgreesWithCircle | src/components/progress-tracker/DayDetail.tsx:21-22 | for a positive goal the dialog shows the circle's percentage rounded; for a zero goal the circle shows 0 and the dialog a number that is not finite |
| NutritionTracker.StatsFor | src/components/NutritionTracker.tsx:52-71 | the totals are the sums of perUnit·quantity over today's rows, and remaining plus total is the goal |
| NutritionTracker.RemainingGoesNegative | src/components/NutritionTracker.tsx:66-71 | nothing clamps the remainder: once a single one of today's consumptions exceeds the goal, and no amount is negative, the remainder is below zero |
| NutritionTracker.Tracker.constructor | src/components/NutritionTracker.tsx:27-35 | the initial state: no foods, empty fields, zero statistics |
| NutritionTracker.Tracker.RefreshDailyStats | src/components/NutritionTracker.tsx:37-77 | the statistics are replaced exactly when both requests succeed and a goal exists |
| NutritionTracker.Tracker.FetchFoods | src/components/NutritionTracker.tsx:79-90 | the foods are the response, or none on failure |
| NutritionTracker.Tracker.HandleConsumption | src/components/NutritionTracker.tsx:92-121 | nothing without a food and a quantity; otherwise the request is sent; only on success are the statistics refreshed and the fields cleared |
| ConsumptionApi.Post | src/app/api/consumption/route.ts:6-36 | 401 without a session; 500 for a missing food; otherwise a consumption of the user dated now is appended under a fresh id that no stored consumption carries, and returned with its food |
| ConsumptionApi.StartOfToday | src/app/api/consumption/route.ts:46-47 | the start is the first instant of now's local day: on that day, at or before now, and no later than any other instant of the day |
| ConsumptionApi.TodaysRows | src/app/api/consumption/route.ts:49-62 | the answer is today's rows of the user, as a permutation of the query's rows, newest first |
| ConsumptionApi.TodaysRowsComplete | src/app/api/consumption/route.ts:49-55 | every consumption of the user from local midnight on is listed |
| ConsumptionApi.Get | src/app/api/consumption/route.ts:38-78 | 401 without a session; otherwise `TodaysRows` |
| ConsumptionApi.MatchIndex | src/app/api/consumption/route.ts:97-102 | the record found has the id and the owner, and no record has both when none is found |
| ConsumptionApi.Delete | src/app/api/consumption/route.ts:82-112 | 401 without a session; 400 without an id; 500 when no record of the user has the id; otherwise that one record is removed and nothing else changes |
| ConsumptionApi.IdTextInjective | src/app/api/consumption/route.ts:99 | distinct ids have distinct texts |
| ConsumptionApi.DeleteKeepsOthers | src/app/api/consumption/route.ts:97-102 | a delete keeps every record but the one matched, which is the user's record with the id |
| DailyGoalApi.Post | src/app/api/daily-goal/route.ts:6-31 | 401 without a session; otherwise a goal of the user dated now is appended under a fresh id with the values unchecked, and earlier goals are kept |
| DailyGoalApi.Latest | src/app/api/daily-goal/route.ts:41-48 | nothing exactly when the user has no goal; otherwise one of the user's goals with the greatest date |
| DailyGoalApi.Get | src/app/api/daily-goal/route.ts:33-57 | 401 without a session; otherwise the user's latest goal, or null |
| DailyGoalApi.OthersIgnored | src/app/api/daily-goal/route.ts:42-44 | other users' goals never change the answer |
| DailyGoalApi.PostedGoalIsLatest | src/app/api/daily-goal/route.ts:16-48 | a goal posted no earlier than the user's others is the one the next GET returns |
| FoodApi.Post | src/app/api/food/route.ts:7-42 | 401 without a session user id; otherwise the food is stored as given under a fresh id, owned by the session user, and answered with 201 |
| FoodApi.OwnedFoods | src/app/api/food/route.ts:53-57 | the listed foods are exactly the user's foods |
| FoodApi.Get | src/app/api/food/route.ts:44-67 | 401 without a session user id; otherwise `OwnedFoods` |
| FoodApi.PostedFoodListed | src/app/api/food/route.ts:25-57 | after a POST, the poster's list gains the new food at its end and other users' lists are unchanged |
| UserDeleteApi.Delete | src/app/api/user/delete/route.ts:6-68 | 401 without a session; otherwise the consumptions, foods, goals, sessions, accounts and user are removed in that order, and a failing step ends with 500, leaving the earlier steps done |
| UserDeleteApi.DeleteOwnedRows | src/app/api/user/delete/route.ts:16-51 | the five owned-row deletions run in order until the failing step; each table before it loses the user's rows and the ones from it on are untouched; users are untouched |
| UserDeleteApi.CompleteRunErases | src/app/api/user/delete/route.ts:19-58 | after a complete run no record carries the user and the user is gone |
| UserDeleteApi.OthersKept | src/app/api/user/delete/route.ts:19-51 | other users' records survive whatever step fails |
| UserDeleteApi.FailureLeavesPrefixDone | src/app/api/user/delete/route.ts:16-66 | when a step fails, the earlier tables are cleared of the user and the later ones are untouched |
| ManageFoods.Check | src/components/ManageFoods.tsx:109-129 | the form is checked name, then calories, then protein; the first failure decides; a valid form has a nonblank name and two non-negative numbers |
| ManageFoods.ZeroAccepted | src/components/ManageFoods.tsx:115-125 | zero calories and zero protein are accepted |
| ManageFoods.FilteredFoods | src/components/ManageFoods.tsx:197-199 | a food is shown exactly when its lowercased name contains the lowercased query |
| ManageFoods.EmptyQueryKeepsAll | src/components/ManageFoods.tsx:197-199 | an empty search shows every food, in order |
| ManageFoods.QueryCaseIgnored | src/components/ManageFoods.tsx:198 | the query's letter case does not matter |
| ManageFoods.Manager.constructor | src/components/ManageFoods.tsx:33-47 | the initial state: the list mode with an empty form and no error |
| ManageFoods.Manager.FetchFoods | src/components/ManageFoods.tsx:49-62 | the foods are the response, or none on failure |
| ManageFoods.Manager.Shown | src/components/ManageFoods.tsx:197-199 | the foods on display are exactly those whose lowercased name holds the lowercased search text, in list order |
| ManageFoods.Manager.SetSearchQuery | src/components/ManageFoods.tsx:243 | typing in the search box sets the query and changes nothing else |
| ManageFoods.Manager.SetName | src/components/ManageFoods.tsx:102-107 | typing in the name field replaces that field of the form and nothing else |
| ManageFoods.Manager.SetCalories | src/components/ManageFoods.tsx:102-107 | typing in the calories field replaces that field of the form and nothing else |
| ManageFoods.Manager.SetProtein | src/components/ManageFoods.tsx:102-107 | typing in the protein field replaces that field of the form and nothing else |
| ManageFoods.Manager.Open | src/components/ManageFoods.tsx:188-193 | opening the dialog loads the foods and shows the list |
| ManageFoods.Manager.HandleAddNew | src/components/ManageFoods.tsx:93-100 | add mode with an empty form |
| ManageFoods.Manager.HandleEditFood | src/components/ManageFoods.tsx:83-91 | edit mode with the food's id, name and number texts in the form |
| ManageFoods.Manager.ValidateForm | src/components/ManageFoods.tsx:109-129 | the result says whether the form is valid, and the error becomes the first failure's message, or empty |
| ManageFoods.Manager.HandleSubmit | src/components/ManageFoods.tsx:131-176 | an invalid form sends nothing and keeps the mode; a valid one sends a POST in add mode and a PUT otherwise; success refetches and returns to the list, failure keeps the form with a message |
| ManageFoods.Manager.ResetForm | src/components/ManageFoods.tsx:178-186 | back to the list with an empty form and no error |
| ManageFoods.EditAndSave | src/components/ManageFoods.tsx:131-165 | saving a well-formed food right after opening it for editing sends its own values back |
| GoalEditor.SavedValue | src/components/GoalEditor.tsx:18-19 | the save accepts exactly a parsed number above zero |
| GoalEditor.ZeroAndBlankRefused | src/components/GoalEditor.tsx:19 | zero and text without a digit are refused |
| GoalEditor.PositiveWholeSaved | src/components/GoalEditor.tsx:18-21 | a positive whole number is saved as that number |
| GoalEditor.Editor.constructor | src/components/GoalEditor.tsx:14-15 | the editor starts closed with no text |
| GoalEditor.Editor.SetNewGoal | src/components/GoalEditor.tsx:48 | typing sets the text and leaves the editor open or closed as it was |
| GoalEditor.Editor.StartEditing | src/components/GoalEditor.tsx:35 | the pencil opens the editor and keeps the text |
| GoalEditor.Editor.Cancel | src/components/GoalEditor.tsx:60 | cancel closes the editor and keeps the text |
| GoalEditor.Editor.HandleSave | src/components/GoalEditor.tsx:17-24 | an invalid value changes nothing; a valid one is handed to the update, and once that resolves the editor closes and its text is cleared |
| ConsumptionForm.Form.constructor | src/components/ConsumptionForm.tsx:18-19 | the form starts with no food chosen and no quantity |
| ConsumptionForm.Form.SelectFood | src/components/ConsumptionForm.tsx:37 | choosing a food sets it and keeps the quantity |
| ConsumptionForm.Form.SetQuantity | src/components/ConsumptionForm.tsx:54 | typing a quantity sets it and keeps the chosen food |
| ConsumptionForm.Form.HandleSubmit | src/components/ConsumptionForm.tsx:21-28 | with both fields filled the callback gets the food id and the parsed quantity, and both fields are cleared unconditionally; otherwise nothing happens |
| ConsumptionForm.SubmitTwice | src/components/ConsumptionForm.tsx:23-26 | a second submit right after a first sends nothing, so each filled form reaches the callback once |
| ConsumptionForm.WholeQuantityPasses | src/components/ConsumptionForm.tsx:24 | a whole number typed as the quantity reaches the callback as that number |

## Left out

- Time zones and daylight saving. The local zone is a fixed offset. The client trackers compare day numbers with `today`, so `new Date('yyyy-MM-dd')` (UTC midnight) versus local `format` is not modelled, and the `Math.round` day count of a custom range is exact.
- Date strings. `format`/`new Date(string)` are reduced to day numbers. The history route's date parameters are either an instant or Invalid Date.
- HistoryApi.History: the JavaScript Date range (±8.64e15 ms) is not modelled. A `days` so large that `subDays` leaves that range (for example `days=200000000`) gives an Invalid Date start. The database query then throws and the route answers 500, but the model answers with the entries. Only a date parameter can be Invalid Date in the model.
- MockHistory.Get: `Number(param)` is a parameter holding a whole number or NaN. A fractional `days` such as `2.5` cannot be given; the source's loop would emit `floor(days)` entries for it.
- Parsing. `parseInt` and `parseFloat` read optional leading ASCII blanks (space, tab, line feed, carriage return, vertical tab, form feed), a sign and decimal digits. The other Unicode white space they also skip is not skipped by the model. Hexadecimal prefixes, exponents and `Infinity` are not read. `trim` removes ASCII blanks only, and `toLowerCase` folds ASCII letters only.
- Floating point. Numbers are exact reals. Only the non-finite results of an unguarded division are kept.
- Randomness. `Math.random` results are parameters (`MockHistory.Draw`) that lie in [0, 1).
- Network, Prisma, next-auth and React. Responses are parameters. The session is an optional user id. Handler errors other than those the model names (a thrown query, a missing food, a missing record, an Invalid Date) are not modelled. In the current tracker a history or mock response is either a fetched array of entries or a failure. A 200 response whose JSON body is not an array is not representable there: `.find` on it throws while the first day is built, the catch keeps the old days, and no mock history is fetched. The legacy tracker models that case.
- LegacyTracker.LegacyHistoryData: the mock request retried from the outer catch is taken to end the same way as the first attempt.
- DailyGoalApi.Latest: of several goals with the same greatest date, the model picks the one stored last. The database's choice among ties is unspecified.
- Foreign keys. The only constraint modelled is the food reference of a new consumption. Cascades and the reference checks of the deletion steps are not modelled; `UserDeleteApi.Delete` takes the step that throws as the parameter `failAt`.
- Food edits and deletions. `ManageFoods` sends PUT and DELETE requests to `/api/food`, which defines only POST and GET. The PUT outcome is a parameter of `HandleSubmit`. `handleDeleteFood` and its confirmation dialog are not modelled, because the route they call is not part of this model. `src/app/api/food/[id]/route.ts` is not part of this model either.
- Loading flags and menus. `isLoading` is kept only in the trackers. The trackers keep `showDropdown` and `expanded` as fields, and each handler states whether it changes them. The buttons that toggle them are left out, as is all rendering (classes, icons, SVG geometry).
- The source's design differs from its code in four places, and the model follows the code:
  - a custom range whose start is after its end yields no days, not an error;
  - a zero goal total makes the tracker percentages NaN or infinite, not 0;
  - goals are stored without validation;
  - there is no goal adjustment.

## Findings

| source | as written | input that shows it | evidently intended | confidence | as-written member | corrected member |
|---|---|---|---|---|---|---|
| src/components/WeeklyProgressTracker.tsx:160-207 | the custom-range loop pushes days oldest first, and the `days.reverse()` meant for the trailing loop also reverses them, so a custom range is shown newest first | custom range from day 10 to day 12: the days come out 12, 11, 10 | every range in chronological order, as the comment at line 206 says and as the newer tracker does by sorting | not executed | LegacyTracker.LegacyCustomReversed | ProgressTracker.BuildDays |
