/**
 * The progress tracker: the days of the selected range, gap-filled from the
 * history and measured against one goal, and the statistics over them. Days
 * are calendar days counted from 1970-01-01; `today` is the viewer's day.
 */
module ProgressTracker {
  import opened Wrappers
  import opened JsNum
  import opened Parsing
  import opened Calendar
  import opened Records
  import opened Tables
  import opened Sorting
  import opened Days
  import HistoryApi

  /** `daysToFetch`: 30 for the month, 7 for every other range. */
  function TrailingCount(range: DateRange): nat
  {
    if range == Month then 30 else 7
  }

  /** `dateRange === 'custom' && startDate && endDate`. */
  predicate HasCustomDates(range: DateRange, startDate: Option<int>, endDate: Option<int>)
  {
    range == Custom && startDate.Some? && endDate.Some?
  }

  /** The first day of the range. */
  function RangeStart(range: DateRange, startDate: Option<int>, endDate: Option<int>, today: int): int
  {
    if range == CurrentWeek then StartOfWeek(today)
    else if HasCustomDates(range, startDate, endDate) then startDate.value
    else today - (TrailingCount(range) - 1)
  }

  /** The number of days of the range; a custom range whose start is after its end has none. */
  function RangeLength(range: DateRange, startDate: Option<int>, endDate: Option<int>, today: int): nat
  {
    if range == CurrentWeek then 7
    else if HasCustomDates(range, startDate, endDate) then
      (if endDate.value - startDate.value + 1 > 0 then endDate.value - startDate.value + 1 else 0)
    else TrailingCount(range)
  }

  /**
   * The days of the range, oldest first: consecutive dates from the range's
   * first day, each gap-filled from the history and carrying the goal.
   */
  function RangeDays(range: DateRange, startDate: Option<int>, endDate: Option<int>, today: int, goal: Goal, history: seq<HistoryEntry>): (days: seq<DayData>)
    ensures |days| == RangeLength(range, startDate, endDate, today)
    ensures forall k :: 0 <= k < |days| ==>
      && days[k].date == RangeStart(range, startDate, endDate, today) + k
      && days[k].calorieGoal == goal.calorieGoal && days[k].proteinGoal == goal.proteinGoal
    ensures forall j, k :: 0 <= j < k < |days| ==> days[j].date < days[k].date
  {
    var first := RangeStart(range, startDate, endDate, today);
    var days := seq(RangeLength(range, startDate, endDate, today), k => DayOf(history, first + k, goal));
    assert forall k :: 0 <= k < |days| ==> days[k] == DayOf(history, first + k, goal);
    days
  }

  /**
   * The day sequence of `fetchWeekData`: the current week and a custom range
   * are pushed oldest first and sorted by date; the trailing ranges (and a
   * custom range missing a date) are pushed newest first, then the former are
   * reversed and the latter sorted. Whatever the route, the result is the
   * consecutive days of the range, oldest first, each gap-filled and carrying
   * the goal.
   */
  method BuildDays(range: DateRange, startDate: Option<int>, endDate: Option<int>, today: int, goal: Goal, history: seq<HistoryEntry>)
    returns (days: seq<DayData>)
    ensures days == RangeDays(range, startDate, endDate, today, goal, history)
  {
    if range == CurrentWeek {
      var pushed := FillForward(history, StartOfWeek(today), 7, goal);
      days := SortBy(pushed, DayDate);
      ForwardDays(pushed, range, startDate, endDate, today, goal, history);
    } else if range == Custom && startDate.Some? && endDate.Some? {
      var pushed := FillForward(history, startDate.value, endDate.value - startDate.value + 1, goal);
      days := SortBy(pushed, DayDate);
      ForwardDays(pushed, range, startDate, endDate, today, goal, history);
    } else {
      var pushed := FillBackward(history, today, TrailingCount(range), goal);
      if range == Custom {
        days := SortBy(pushed, DayDate);
        BackwardSorted(pushed, today, goal, history);
      } else {
        days := Reversed(pushed);
      }
      BackwardDays(pushed, range, startDate, endDate, today, goal, history);
    }
  }

  /** Days pushed oldest first from the range's first day are the range, and the sort keeps them. */
  lemma ForwardDays(pushed: seq<DayData>, range: DateRange, startDate: Option<int>, endDate: Option<int>, today: int, goal: Goal, history: seq<HistoryEntry>)
    requires range == CurrentWeek || HasCustomDates(range, startDate, endDate)
    requires |pushed| == RangeLength(range, startDate, endDate, today)
    requires forall k :: 0 <= k < |pushed| ==> pushed[k] == DayOf(history, RangeStart(range, startDate, endDate, today) + k, goal)
    ensures SortBy(pushed, DayDate) == RangeDays(range, startDate, endDate, today, goal, history)
  {
    AscendingIsSorted(pushed, RangeStart(range, startDate, endDate, today));
    AreRangeDays(pushed, range, startDate, endDate, today, goal, history);
  }

  /** Days pushed newest first from today are the trailing range once reversed. */
  lemma BackwardDays(pushed: seq<DayData>, range: DateRange, startDate: Option<int>, endDate: Option<int>, today: int, goal: Goal, history: seq<HistoryEntry>)
    requires range != CurrentWeek && !HasCustomDates(range, startDate, endDate)
    requires |pushed| == TrailingCount(range)
    requires forall k :: 0 <= k < |pushed| ==> pushed[k] == DayOf(history, today - k, goal)
    ensures Reversed(pushed) == RangeDays(range, startDate, endDate, today, goal, history)
  {
    var n := |pushed|;
    var first := RangeStart(range, startDate, endDate, today);
    assert first == today - (n - 1);
    BackwardReversed(pushed, today, first, goal, history);
    AreRangeDays(Reversed(pushed), range, startDate, endDate, today, goal, history);
  }

  /** Days pushed newest first are reversed by the sort on dates. */
  lemma BackwardSorted(pushed: seq<DayData>, today: int, goal: Goal, history: seq<HistoryEntry>)
    requires forall k :: 0 <= k < |pushed| ==> pushed[k] == DayOf(history, today - k, goal)
    ensures SortBy(pushed, DayDate) == Reversed(pushed)
  {
    assert forall k :: 0 <= k < |pushed| ==> pushed[k].date == today - k;
    DescendingSortsReversed(pushed, today);
  }

  lemma BackwardReversed(pushed: seq<DayData>, today: int, first: int, goal: Goal, history: seq<HistoryEntry>)
    requires forall k :: 0 <= k < |pushed| ==> pushed[k] == DayOf(history, today - k, goal)
    requires first == today - (|pushed| - 1)
    ensures var r := Reversed(pushed);
      forall k :: 0 <= k < |r| ==> r[k] == DayOf(history, first + k, goal)
  {
    var r := Reversed(pushed);
    var n := |pushed|;
    forall k | 0 <= k < n ensures r[k] == DayOf(history, first + k, goal) {
      assert r[k] == pushed[n - 1 - k];
      assert today - (n - 1 - k) == first + k;
    }
  }

  /** Days pushed oldest first are left as they are by the sort on dates. */
  lemma AscendingIsSorted(days: seq<DayData>, first: int)
    requires forall k :: 0 <= k < |days| ==> days[k].date == first + k
    ensures SortBy(days, DayDate) == days
  {
    SortedIsUnchanged(days, DayDate);
  }

  /** Days pushed newest first are reversed by the sort on dates. */
  lemma DescendingSortsReversed(days: seq<DayData>, last: int)
    requires forall k :: 0 <= k < |days| ==> days[k].date == last - k
    ensures SortBy(days, DayDate) == Reversed(days)
  {
    SortDescending(days, DayDate);
  }

  lemma AreRangeDays(days: seq<DayData>, range: DateRange, startDate: Option<int>, endDate: Option<int>, today: int, goal: Goal, history: seq<HistoryEntry>)
    requires |days| == RangeLength(range, startDate, endDate, today)
    requires forall k :: 0 <= k < |days| ==> days[k] == DayOf(history, RangeStart(range, startDate, endDate, today) + k, goal)
    ensures days == RangeDays(range, startDate, endDate, today, goal, history)
  {
  }

  // --- the ranges ---

  /** The current week is Monday to Sunday of the week containing today, in order. */
  lemma CurrentWeekRange(startDate: Option<int>, endDate: Option<int>, today: int)
    ensures var m := RangeStart(CurrentWeek, startDate, endDate, today);
      && RangeLength(CurrentWeek, startDate, endDate, today) == 7
      && m <= today < m + 7
      && forall d :: m <= d < m + 7 ==> Weekday(d) == d - m
  {
    var m := StartOfWeek(today);
    forall d | m <= d < m + 7 ensures Weekday(d) == d - m {
      WeekdayInWeek(m, d - m);
    }
  }

  /** The trailing ranges, and a custom range missing a date, are the last 7 or 30 days, ending today. */
  lemma TrailingRange(range: DateRange, startDate: Option<int>, endDate: Option<int>, today: int)
    requires range != CurrentWeek && !HasCustomDates(range, startDate, endDate)
    ensures var n := RangeLength(range, startDate, endDate, today);
      && n == (if range == Month then 30 else 7)
      && RangeStart(range, startDate, endDate, today) + n - 1 == today
  {
  }

  /** A custom range runs from its start to its end inclusive, and is empty when the start is after the end. */
  lemma CustomRange(s: int, e: int, today: int)
    ensures RangeStart(Custom, Some(s), Some(e), today) == s
    ensures s <= e ==> RangeLength(Custom, Some(s), Some(e), today) == e - s + 1
    ensures e < s ==> RangeLength(Custom, Some(s), Some(e), today) == 0
  {
  }

  // --- statistics ---

  /** `!isAfter(new Date(day.date), today)`. */
  function NotAfter(today: int): DayData -> bool
  {
    (d: DayData) => d.date <= today
  }

  /** The days that enter the statistics: in the current week only those up to today. */
  function Relevant(days: seq<DayData>, range: DateRange, today: int): (r: seq<DayData>)
    ensures range != CurrentWeek ==> r == days
    ensures range == CurrentWeek ==>
      && (forall k :: 0 <= k < |r| ==> r[k] in days && r[k].date <= today)
      && (forall k :: 0 <= k < |days| && days[k].date <= today ==> days[k] in r)
  {
    if range == CurrentWeek then Filter(days, NotAfter(today)) else days
  }

  /**
   * `calculateStats`: totals over the relevant days, averages over their
   * number (1 when there are none), and percentages of the goal totals with
   * no guard against a zero goal total.
   */
  function CalculateStats(days: seq<DayData>, range: DateRange, today: int): (s: StatsData)
    ensures |days| == 0 ==> s == ZeroStats
    ensures |days| > 0 ==> s.daysCount >= 1
    ensures |days| > 0 ==> (s.daysCount == |Relevant(days, range, today)| || (|Relevant(days, range, today)| == 0 && s.daysCount == 1))
    ensures s.totalCalories == SumConsumed(Relevant(days, range, today), Calories)
    ensures s.totalProtein == SumConsumed(Relevant(days, range, today), Protein)
    ensures s.totalCalorieGoal == SumGoals(Relevant(days, range, today), Calories)
    ensures s.totalProteinGoal == SumGoals(Relevant(days, range, today), Protein)
    ensures s.daysCount as real * s.calories == s.totalCalories
    ensures s.daysCount as real * s.protein == s.totalProtein
    ensures s.daysCount as real * s.avgCalorieGoal == s.totalCalorieGoal
    ensures s.daysCount as real * s.avgProteinGoal == s.totalProteinGoal
    ensures |days| > 0 ==> s.caloriePercent == Percent(s.totalCalories, s.totalCalorieGoal)
    ensures |days| > 0 ==> s.proteinPercent == Percent(s.totalProtein, s.totalProteinGoal)
  {
    if |days| == 0 then ZeroStats
    else
      var rel := Relevant(days, range, today);
      var calories := SumConsumed(rel, Calories);
      var protein := SumConsumed(rel, Protein);
      var calorieGoalTotal := SumGoals(rel, Calories);
      var proteinGoalTotal := SumGoals(rel, Protein);
      var daysCount: nat := if |rel| == 0 then 1 else |rel|;
      AverageTimesCount(calories, daysCount);
      AverageTimesCount(protein, daysCount);
      AverageTimesCount(calorieGoalTotal, daysCount);
      AverageTimesCount(proteinGoalTotal, daysCount);
      StatsData(
        calories / daysCount as real, protein / daysCount as real,
        Percent(calories, calorieGoalTotal), Percent(protein, proteinGoalTotal),
        calories, protein,
        calorieGoalTotal / daysCount as real, proteinGoalTotal / daysCount as real,
        calorieGoalTotal, proteinGoalTotal,
        daysCount)
  }

  /** An average times the number of days it is taken over gives back the total. */
  lemma AverageTimesCount(total: real, count: nat)
    requires count > 0
    ensures count as real * (total / count as real) == total
  {
  }

  /**
   * The percentages of `CalculateStats` are defined whenever some day is
   * relevant: every day carries the same nonzero goal, so the goal total is
   * that goal times the number of days (`GoalTotal`), which is not zero.
   */
  lemma PercentDefined(days: seq<DayData>, range: DateRange, today: int, goal: Goal)
    requires goal.calorieGoal != 0.0 && goal.proteinGoal != 0.0
    requires forall k :: 0 <= k < |days| ==> days[k].calorieGoal == goal.calorieGoal && days[k].proteinGoal == goal.proteinGoal
    requires |Relevant(days, range, today)| > 0
    ensures var rel := Relevant(days, range, today);
      && Percent(SumConsumed(rel, Calories), SumGoals(rel, Calories)).Finite?
      && Percent(SumConsumed(rel, Protein), SumGoals(rel, Protein)).Finite?
  {
    assert forall k :: 0 <= k < |days| ==> GoalOf(days[k], Calories) == goal.calorieGoal;
    assert forall k :: 0 <= k < |days| ==> GoalOf(days[k], Protein) == goal.proteinGoal;
    GoalTotalNonzero(days, range, today, Calories, goal.calorieGoal);
    GoalTotalNonzero(days, range, today, Protein, goal.proteinGoal);
  }

  /** With a nonzero goal on every day and some day relevant, the percentage of one nutrient is a number. */
  lemma GoalTotalNonzero(days: seq<DayData>, range: DateRange, today: int, n: Nutrient, g: real)
    requires g != 0.0
    requires forall k :: 0 <= k < |days| ==> GoalOf(days[k], n) == g
    requires |Relevant(days, range, today)| > 0
    ensures var rel := Relevant(days, range, today); Percent(SumConsumed(rel, n), SumGoals(rel, n)).Finite?
  {
    var rel := Relevant(days, range, today);
    GoalTotal(days, range, today, n, g);
    NonzeroProduct(|rel| as real, g);
    PercentFinite(SumConsumed(rel, n), SumGoals(rel, n));
  }

  lemma PercentFinite(total: real, goalTotal: real)
    requires goalTotal != 0.0
    ensures Percent(total, goalTotal).Finite?
  {
  }

  /** The goal total over the relevant days is the goal times their number. */
  lemma GoalTotal(days: seq<DayData>, range: DateRange, today: int, n: Nutrient, g: real)
    requires forall k :: 0 <= k < |days| ==> GoalOf(days[k], n) == g
    ensures var rel := Relevant(days, range, today); SumGoals(rel, n) == |rel| as real * g
  {
    var rel := Relevant(days, range, today);
    RelevantGoal(days, range, today, n, g);
    UniformGoals(rel, n, g);
  }

  /** The relevant days carry the goal every day carries. */
  lemma RelevantGoal(days: seq<DayData>, range: DateRange, today: int, n: Nutrient, g: real)
    requires forall k :: 0 <= k < |days| ==> GoalOf(days[k], n) == g
    ensures var rel := Relevant(days, range, today); forall k :: 0 <= k < |rel| ==> GoalOf(rel[k], n) == g
  {
    var rel := Relevant(days, range, today);
    forall k | 0 <= k < |rel| ensures GoalOf(rel[k], n) == g {
      var j :| 0 <= j < |days| && days[j] == rel[k];
    }
  }

  lemma NonzeroProduct(a: real, b: real)
    requires a > 0.0 && b != 0.0
    ensures a * b != 0.0
  {
    if b > 0.0 {
      assert a * b > 0.0;
    } else {
      assert a * -b > 0.0;
    }
  }

  /** In the current week the statistics cover Monday through today: one day more than today's weekday. */
  lemma CurrentWeekRelevant(days: seq<DayData>, today: int)
    requires |days| == 7
    requires forall k :: 0 <= k < 7 ==> days[k].date == StartOfWeek(today) + k
    ensures Relevant(days, CurrentWeek, today) == days[..Weekday(today) + 1]
  {
    var j := Weekday(today) + 1;
    assert days == days[..j] + days[j..];
    FilterAppend(days[..j], days[j..], NotAfter(today));
    FilterAll(days[..j], NotAfter(today));
    FilterNone(days[j..], NotAfter(today));
  }

  /**
   * A Wednesday in the current week: Monday 1800 kcal, Tuesday 2200 kcal,
   * today 500 kcal against a 2000 kcal goal count as 4500 of 6000 kcal, 75%,
   * and the rest of the week is not counted.
   */
  lemma WednesdayExample(history: seq<HistoryEntry>)
    requires history == [HistoryEntry(20003, 1800.0, 90.0), HistoryEntry(20004, 2200.0, 150.0), HistoryEntry(20005, 500.0, 30.0)]
    ensures var days := seq(7, k => DayOf(history, 20003 + k, Goal(2000.0, 120.0)));
      var s := CalculateStats(days, CurrentWeek, 20005);
      && Weekday(20005) == 2
      && s.daysCount == 3
      && s.totalCalories == 4500.0 && s.totalCalorieGoal == 6000.0
      && s.calories == 1500.0
      && s.caloriePercent == Finite(75.0)
  {
    var days := seq(7, k => DayOf(history, 20003 + k, Goal(2000.0, 120.0)));
    ExampleRelevant(history, days);
    var rel := Relevant(days, CurrentWeek, 20005);
    ExampleSums(rel);
    assert |rel| == 3;
    var s := CalculateStats(days, CurrentWeek, 20005);
    assert s.daysCount == 3;
    assert s.totalCalories == 4500.0 && s.totalCalorieGoal == 6000.0;
    assert s.caloriePercent == Percent(4500.0, 6000.0);
    assert Weekday(20005) == 2;
  }

  /** The relevant days of the example: Monday to Wednesday, gap-filled from its history. */
  lemma ExampleRelevant(history: seq<HistoryEntry>, days: seq<DayData>)
    requires history == [HistoryEntry(20003, 1800.0, 90.0), HistoryEntry(20004, 2200.0, 150.0), HistoryEntry(20005, 500.0, 30.0)]
    requires days == seq(7, k => DayOf(history, 20003 + k, Goal(2000.0, 120.0)))
    ensures Relevant(days, CurrentWeek, 20005) ==
      [DayData(20003, 1800.0, 90.0, 2000.0, 120.0), DayData(20004, 2200.0, 150.0, 2000.0, 120.0), DayData(20005, 500.0, 30.0, 2000.0, 120.0)]
  {
    var goal := Goal(2000.0, 120.0);
    assert StartOfWeek(20005) == 20003;
    CurrentWeekRelevant(days, 20005);
    assert Weekday(20005) == 2;
    assert days[..3] == [DayOf(history, 20003, goal), DayOf(history, 20004, goal), DayOf(history, 20005, goal)];
    assert history[1..][1..] == history[2..] == [history[2]];
    assert FirstMatch(history[2..], 20005) == Some(history[2]);
    assert FirstMatch(history[1..], 20005) == Some(history[2]);
    assert FirstMatch(history[1..], 20004) == Some(history[1]);
  }

  /** The example's sums: 4500 kcal eaten against 6000 kcal of goals. */
  lemma ExampleSums(rel: seq<DayData>)
    requires rel == [DayData(20003, 1800.0, 90.0, 2000.0, 120.0), DayData(20004, 2200.0, 150.0, 2000.0, 120.0), DayData(20005, 500.0, 30.0, 2000.0, 120.0)]
    ensures SumConsumed(rel, Calories) == 4500.0 && SumGoals(rel, Calories) == 6000.0
  {
    assert rel[..|rel| - 1] == rel[..2];
    assert rel[..2][..1] == [rel[0]];
    assert [rel[0]][..0] == [];
    assert SumConsumed([rel[0]], Calories) == 1800.0;
    assert SumConsumed(rel[..2], Calories) == 4000.0;
    UniformGoals(rel, Calories, 2000.0);
  }

  // --- the labels and the displayed days ---

  /**
   * `getDateRangeText`: Monday to Sunday of today's week, the trailing day
   * count, the custom dates with the days between them inclusive, or nothing
   * for a custom range missing a date.
   */
  function RangeLabel(range: DateRange, startDate: Option<int>, endDate: Option<int>, today: int): (text: RangeText)
    ensures text.WeekSpan? <==> range == CurrentWeek
    ensures text.WeekSpan? ==> Weekday(text.from) == 0 && text.from <= today <= text.to && text.to == text.from + 6
    ensures text.LastDays? <==> range == Week || range == Month
    ensures text.LastDays? ==> text.n == TrailingCount(range)
    ensures text.CustomSpan? <==> HasCustomDates(range, startDate, endDate)
    ensures text.CustomSpan? ==> text.from == startDate.value && text.to == endDate.value
    ensures text.CustomSpan? ==> text.count == CustomDayCount(startDate.value, endDate.value)
    ensures text.NoText? <==> range == Custom && !HasCustomDates(range, startDate, endDate)
  {
    if range == CurrentWeek then WeekSpan(StartOfWeek(today), StartOfWeek(today) + 6)
    else if range == Week then LastDays(7)
    else if range == Month then LastDays(30)
    else if HasCustomDates(range, startDate, endDate) then
      CustomSpan(startDate.value, endDate.value, CustomDayCount(startDate.value, endDate.value))
    else NoText
  }

  /**
   * The label names the days built: the week's first and last day, the
   * trailing count, or the custom dates with the number of days built when
   * the start is not after the end.
   */
  lemma LabelMatchesDays(range: DateRange, startDate: Option<int>, endDate: Option<int>, today: int)
    ensures var text := RangeLabel(range, startDate, endDate, today);
      var first := RangeStart(range, startDate, endDate, today);
      var n := RangeLength(range, startDate, endDate, today);
      && (text.WeekSpan? ==> text.from == first && text.to == first + n - 1)
      && (text.LastDays? ==> text.n == n)
      && (text.CustomSpan? && text.from <= text.to ==> text.count == n && text.from == first)
      && (text.NoText? ==> range == Custom && n == 7)
  {
  }

  /** The day circles: the whole current week, otherwise the last seven days. */
  function VisibleDays(range: DateRange, weekData: seq<DayData>): (r: seq<DayData>)
    ensures range == CurrentWeek ==> r == weekData
    ensures range != CurrentWeek ==> |r| == if |weekData| < 7 then |weekData| else 7
    ensures forall k :: 0 <= k < |r| ==> r[k] == weekData[|weekData| - |r| + k]
  {
    if range == CurrentWeek then weekData else LastSeven(weekData)
  }

  // --- the request ---

  /** The history request `fetchWeekData` sends. */
  datatype Request = DaysRequest(n: nat) | RangeRequest(from: int, to: int)

  /**
   * The current week and a custom range with both dates ask for dates from
   * the range's first day; every other range asks for its number of days.
   */
  function HistoryRequest(range: DateRange, startDate: Option<int>, endDate: Option<int>, today: int): (r: Request)
    ensures r.RangeRequest? <==> range == CurrentWeek || HasCustomDates(range, startDate, endDate)
    ensures r.RangeRequest? ==> r.from == RangeStart(range, startDate, endDate, today)
    ensures r.RangeRequest? && r.from <= r.to ==> r.to - r.from + 1 == RangeLength(range, startDate, endDate, today)
    ensures r.DaysRequest? ==> r.n == RangeLength(range, startDate, endDate, today)
    ensures r.DaysRequest? ==> RangeStart(range, startDate, endDate, today) + r.n - 1 == today
  {
    if range == CurrentWeek then RangeRequest(StartOfWeek(today), StartOfWeek(today) + 6)
    else if HasCustomDates(range, startDate, endDate) then RangeRequest(startDate.value, endDate.value)
    else DaysRequest(TrailingCount(range))
  }

  /** The request as the history route reads its query string. */
  function QueryOf(r: Request): HistoryApi.Query
  {
    match r
    case DaysRequest(n) => HistoryApi.Query(Some(NatToString(n)), None, None)
    case RangeRequest(a, b) => HistoryApi.Query(None, Some(HistoryApi.DayParam(a)), Some(HistoryApi.DayParam(b)))
  }

  /** For the trailing ranges the route is asked for exactly the days the tracker shows. */
  lemma TrailingRequestCoversDays(range: DateRange, startDate: Option<int>, endDate: Option<int>, now: int, tz: int, t: int)
    requires range != CurrentWeek && !HasCustomDates(range, startDate, endDate)
    ensures var today := LocalDay(now, tz);
      var first := RangeStart(range, startDate, endDate, today);
      var w := HistoryApi.WindowOf(QueryOf(HistoryRequest(range, startDate, endDate, today)), now, tz);
      w.end.Instant? &&
      (w.start <= t <= w.end.t <==> first <= LocalDay(t, tz) < first + RangeLength(range, startDate, endDate, today))
  {
    var n := TrailingCount(range);
    HistoryApi.DaysOfNumeral(n);
    HistoryApi.DefaultWindowDays(QueryOf(DaysRequest(n)), now, tz, t);
  }

  /**
   * For the current week and a custom range, the route is asked for the days
   * the tracker shows when the server's zone is UTC or east of it (less than
   * a day ahead).
   */
  lemma RangeRequestCoversDays(range: DateRange, startDate: Option<int>, endDate: Option<int>, now: int, tz: int, t: int)
    requires range == CurrentWeek || HasCustomDates(range, startDate, endDate)
    requires 0 <= tz < MsPerDay
    ensures var today := LocalDay(now, tz);
      var first := RangeStart(range, startDate, endDate, today);
      var r := HistoryRequest(range, startDate, endDate, today);
      var w := HistoryApi.WindowOf(QueryOf(r), now, tz);
      r.RangeRequest? && w.end.Instant? &&
      (w.start <= t <= w.end.t <==> r.from <= LocalDay(t, tz) <= r.to) &&
      r.from == first && (r.from <= r.to ==> r.to - r.from + 1 == RangeLength(range, startDate, endDate, today))
  {
    var today := LocalDay(now, tz);
    var r := HistoryRequest(range, startDate, endDate, today);
    assert LocalDay(r.from * MsPerDay, tz) == r.from;
    assert LocalDay(r.to * MsPerDay, tz) == r.to;
    HistoryApi.CustomWindowDays(QueryOf(r), now, tz, t);
  }

  /** `historyData`: the history if it arrived, else the mock history if that arrived, else nothing. */
  function HistoryData(history: Fetch<seq<HistoryEntry>>, mock: Fetch<seq<HistoryEntry>>): (h: seq<HistoryEntry>)
    ensures history.Fetched? ==> h == history.body
    ensures history.Failed? && mock.Fetched? ==> h == mock.body
    ensures history.Failed? && mock.Failed? ==> h == []
  {
    if history.Fetched? then history.body else if mock.Fetched? then mock.body else []
  }

  /** The component's state, one field per `useState`. */
  class Tracker {
    var weekData: seq<DayData>
    var isLoading: bool
    var showDetails: bool
    var selectedDate: Option<int>
    var selectedStats: Option<DayStats>
    var dateRange: DateRange
    var showDropdown: bool
    var startDate: Option<int>
    var endDate: Option<int>
    var showTotalMetrics: bool
    var expanded: bool

    constructor ()
      ensures weekData == [] && isLoading && !showDetails && selectedDate.None? && selectedStats.None?
      ensures dateRange == CurrentWeek && !showDropdown && startDate.None? && endDate.None?
      ensures !showTotalMetrics && !expanded
    {
      weekData := [];
      isLoading := true;
      showDetails := false;
      selectedDate := None;
      selectedStats := None;
      dateRange := CurrentWeek;
      showDropdown := false;
      startDate := None;
      endDate := None;
      showTotalMetrics := false;
      expanded := false;
    }

    /**
     * `fetchWeekData`: resolves the goal, sends the history request (the
     * responses are parameters), builds the days and stores them.
     */
    method FetchWeekData(today: int, goalFetch: Fetch<Option<DailyGoal>>, history: Fetch<seq<HistoryEntry>>, mock: Fetch<seq<HistoryEntry>>)
      returns (request: Request)
      modifies this
      ensures request == HistoryRequest(dateRange, startDate, endDate, today)
      ensures weekData == RangeDays(dateRange, startDate, endDate, today, ResolveGoal(goalFetch), HistoryData(history, mock))
      ensures !isLoading
      ensures dateRange == old(dateRange) && startDate == old(startDate) && endDate == old(endDate)
      ensures showDetails == old(showDetails) && selectedDate == old(selectedDate) && selectedStats == old(selectedStats)
      ensures showDropdown == old(showDropdown) && showTotalMetrics == old(showTotalMetrics) && expanded == old(expanded)
    {
      isLoading := true;
      var currentGoal := Goal(DefaultCalorieGoal, DefaultProteinGoal);
      if goalFetch.Fetched? && goalFetch.body.Some? {
        var g := goalFetch.body.value;
        currentGoal := Goal(OrDefault(g.calorieGoal, DefaultCalorieGoal), OrDefault(g.proteinGoal, DefaultProteinGoal));
      }
      request := HistoryRequest(dateRange, startDate, endDate, today);
      var historyData: seq<HistoryEntry> := [];
      if history.Fetched? {
        historyData := history.body;
      } else if mock.Fetched? {
        historyData := mock.body;
      }
      var days := BuildDays(dateRange, startDate, endDate, today, currentGoal, historyData);
      weekData := days;
      isLoading := false;
    }

    /** `handleDayClick`: remembers the day and its figures and opens the detail. */
    method HandleDayClick(day: DayData)
      modifies this
      ensures selectedDate == Some(day.date)
      ensures selectedStats == Some(DayStats(day.caloriesConsumed, day.proteinConsumed, day.calorieGoal, day.proteinGoal))
      ensures showDetails
      ensures weekData == old(weekData) && dateRange == old(dateRange) && startDate == old(startDate) && endDate == old(endDate)
      ensures isLoading == old(isLoading) && showDropdown == old(showDropdown)
      ensures showTotalMetrics == old(showTotalMetrics) && expanded == old(expanded)
    {
      selectedDate := Some(day.date);
      selectedStats := Some(DayStats(day.caloriesConsumed, day.proteinConsumed, day.calorieGoal, day.proteinGoal));
      showDetails := true;
    }

    /** `closeDetails`. */
    method CloseDetails()
      modifies this
      ensures !showDetails && selectedDate.None? && selectedStats.None?
      ensures weekData == old(weekData) && dateRange == old(dateRange) && startDate == old(startDate) && endDate == old(endDate)
      ensures isLoading == old(isLoading) && showDropdown == old(showDropdown)
      ensures showTotalMetrics == old(showTotalMetrics) && expanded == old(expanded)
    {
      showDetails := false;
      selectedDate := None;
      selectedStats := None;
    }

    /**
     * `handleRangeChange`: selects the range and closes the menu; choosing
     * the custom range with neither date set seeds it with the eight days
     * from a week ago to today.
     */
    method HandleRangeChange(range: DateRange, today: int)
      modifies this
      ensures dateRange == range && !showDropdown
      ensures range == Custom && old(startDate).None? && old(endDate).None? ==>
        startDate == Some(today - 7) && endDate == Some(today)
      ensures !(range == Custom && old(startDate).None? && old(endDate).None?) ==>
        startDate == old(startDate) && endDate == old(endDate)
      ensures weekData == old(weekData) && showTotalMetrics == old(showTotalMetrics)
      ensures isLoading == old(isLoading) && showDetails == old(showDetails)
      ensures selectedDate == old(selectedDate) && selectedStats == old(selectedStats) && expanded == old(expanded)
    {
      dateRange := range;
      showDropdown := false;
      if range == Custom && startDate.None? && endDate.None? {
        startDate := Some(today - 7);
        endDate := Some(today);
      }
    }

    /** `handleCustomRangeSubmit`: refetches only when both custom dates are set. */
    method HandleCustomRangeSubmit(today: int, goalFetch: Fetch<Option<DailyGoal>>, history: Fetch<seq<HistoryEntry>>, mock: Fetch<seq<HistoryEntry>>)
      returns (request: Option<Request>)
      modifies this
      ensures startDate.Some? && endDate.Some? <==> request.Some?
      ensures request.Some? ==>
        && request.value == HistoryRequest(dateRange, startDate, endDate, today)
        && weekData == RangeDays(dateRange, startDate, endDate, today, ResolveGoal(goalFetch), HistoryData(history, mock))
      ensures request.Some? ==> !isLoading
      ensures request.None? ==> weekData == old(weekData) && isLoading == old(isLoading)
      ensures dateRange == old(dateRange) && startDate == old(startDate) && endDate == old(endDate)
      ensures showDetails == old(showDetails) && selectedDate == old(selectedDate) && selectedStats == old(selectedStats)
      ensures showDropdown == old(showDropdown) && showTotalMetrics == old(showTotalMetrics) && expanded == old(expanded)
    {
      request := None;
      if startDate.Some? && endDate.Some? {
        var r := FetchWeekData(today, goalFetch, history, mock);
        request := Some(r);
      }
    }

    /**
     * The statistics the cards and the summary show: the sums over the days
     * that count for the selected range.
     */
    function Stats(today: int): (s: StatsData)
      reads this
      ensures s.totalCalories == SumConsumed(Relevant(weekData, dateRange, today), Calories)
      ensures s.totalProtein == SumConsumed(Relevant(weekData, dateRange, today), Protein)
      ensures s.totalCalorieGoal == SumGoals(Relevant(weekData, dateRange, today), Calories)
      ensures s.totalProteinGoal == SumGoals(Relevant(weekData, dateRange, today), Protein)
      ensures weekData == [] ==> s == ZeroStats
    {
      CalculateStats(weekData, dateRange, today)
    }
  }

  /** The seeded custom range has eight days, ending today. */
  lemma SeededCustomRange(today: int)
    ensures RangeLength(Custom, Some(today - 7), Some(today), today) == 8
    ensures RangeStart(Custom, Some(today - 7), Some(today), today) + 7 == today
  {
  }
}
