/**
 * The first version of the progress tracker: three ranges (the last 7 days,
 * the last 30 days, a custom range), a history fetched with no parameters and
 * several fallbacks when it fails, a day sequence that is always reversed
 * after it is built, and statistics over every day built.
 */
module LegacyTracker {
  import opened Wrappers
  import opened JsNum
  import opened Records
  import opened Sorting
  import opened Days
  import opened ProgressTracker
  import MockHistory

  /** `'week' | 'month' | 'custom'`: the legacy tracker has no current-week range. */
  type LegacyRange = r: DateRange | !r.CurrentWeek? witness Week

  /** How the `/api/history` request ended. */
  datatype HistoryOutcome = HistoryThrew | HistoryNotOk | HistoryNotArray | HistoryArray(entries: seq<HistoryEntry>)

  /** How the `/api/mock-history` request ended. */
  datatype MockOutcome = MockThrew | MockNotOk | MockOk(entries: seq<HistoryEntry>)

  /**
   * The last resort: 30 days ending today, day `i` with
   * `Math.floor(Math.random() * goal)` calories and protein.
   */
  function RandomHistory(today: int, goal: Goal, draws: seq<MockHistory.Draw>): (h: seq<HistoryEntry>)
    requires |draws| >= 30
    ensures |h| == 30
    ensures forall i :: 0 <= i < 30 ==> h[i].date == today - (29 - i)
  {
    seq(30, i requires 0 <= i < 30 => RandomEntry(today - (29 - i), goal, draws[i]))
  }

  /** One random day: against a positive goal, whole numbers from 0 up to, not including, the goal. */
  function RandomEntry(date: int, goal: Goal, draw: MockHistory.Draw): (e: HistoryEntry)
    ensures e.date == date
    ensures e.calories == Floor(e.calories) as real && e.protein == Floor(e.protein) as real
    ensures MockHistory.IsDraw(draw) && goal.calorieGoal > 0.0 ==> 0.0 <= e.calories < goal.calorieGoal
    ensures MockHistory.IsDraw(draw) && goal.proteinGoal > 0.0 ==> 0.0 <= e.protein < goal.proteinGoal
  {
    HistoryEntry(date, RandomValue(draw.calories, goal.calorieGoal) as real, RandomValue(draw.protein, goal.proteinGoal) as real)
  }

  /** `Math.floor(Math.random() * goal)`: against a positive goal, a whole number from 0 up to, not including, the goal. */
  function RandomValue(r: real, g: real): (v: int)
    ensures Floor(v as real) == v
    ensures 0.0 <= r < 1.0 && g > 0.0 ==> 0.0 <= v as real < g
  {
    FloorBelow(r, g);
    FloorOfWhole(Floor(r * g));
    Floor(r * g)
  }

  /** Against a positive goal the random values are whole numbers from 0 up to, not including, the goal. */
  lemma RandomHistoryBounds(today: int, goal: Goal, draws: seq<MockHistory.Draw>)
    requires |draws| >= 30
    requires forall i :: 0 <= i < |draws| ==> MockHistory.IsDraw(draws[i])
    requires goal.calorieGoal > 0.0 && goal.proteinGoal > 0.0
    ensures var h := RandomHistory(today, goal, draws);
      forall i :: 0 <= i < 30 ==>
        && 0.0 <= h[i].calories < goal.calorieGoal && h[i].calories == Floor(h[i].calories) as real
        && 0.0 <= h[i].protein < goal.proteinGoal && h[i].protein == Floor(h[i].protein) as real
  {
    var h := RandomHistory(today, goal, draws);
    forall i | 0 <= i < 30
      ensures 0.0 <= h[i].calories < goal.calorieGoal && h[i].calories == Floor(h[i].calories) as real
      ensures 0.0 <= h[i].protein < goal.proteinGoal && h[i].protein == Floor(h[i].protein) as real
    {
      assert h[i] == RandomEntry(today - (29 - i), goal, draws[i]);
      assert MockHistory.IsDraw(draws[i]);
    }
  }

  lemma FloorBelow(r: real, g: real)
    ensures 0.0 <= r < 1.0 && g > 0.0 ==> 0.0 <= Floor(r * g) as real < g
  {
    if 0.0 <= r < 1.0 && g > 0.0 {
      assert (1.0 - r) * g > 0.0;
      assert r * g >= 0.0;
    }
  }

  lemma FloorOfWhole(n: int)
    ensures Floor(n as real) == n
  {
  }

  /**
   * `historyData` after the request and its fallbacks: the history when it
   * is an array; the mock history when that arrives; otherwise nothing when
   * the history was not an array but the mock answered, and the random
   * history in every other case. A failing mock request is tried again from
   * the outer handler; the retry is taken to end the same way.
   */
  function LegacyHistoryData(history: HistoryOutcome, mock: MockOutcome, today: int, goal: Goal, draws: seq<MockHistory.Draw>): (h: seq<HistoryEntry>)
    requires |draws| >= 30
    ensures history.HistoryArray? ==> h == history.entries
    ensures !history.HistoryArray? && mock.MockOk? ==> h == mock.entries
    ensures history.HistoryNotArray? && mock.MockNotOk? ==> h == []
    ensures !history.HistoryArray? && !mock.MockOk? && !(history.HistoryNotArray? && mock.MockNotOk?) ==>
      h == RandomHistory(today, goal, draws)
  {
    match history
    case HistoryArray(entries) => entries
    case HistoryNotArray =>
      (match mock
       case MockOk(entries) => entries
       case MockNotOk => []
       case MockThrew => RandomHistory(today, goal, draws))
    case _ => if mock.MockOk? then mock.entries else RandomHistory(today, goal, draws)
  }

  /**
   * The legacy day sequence as written: both loops push their days and the
   * result is reversed. The trailing ranges come out oldest first, ending
   * today; a custom range comes out newest first, starting at its end date.
   */
  function LegacyDays(range: LegacyRange, startDate: Option<int>, endDate: Option<int>, today: int, goal: Goal, history: seq<HistoryEntry>): (days: seq<DayData>)
    ensures |days| == RangeLength(range, startDate, endDate, today)
    ensures !HasCustomDates(range, startDate, endDate) ==>
      forall k :: 0 <= k < |days| ==> days[k].date == today - (|days| - 1) + k
    ensures HasCustomDates(range, startDate, endDate) ==>
      forall k :: 0 <= k < |days| ==> days[k].date == endDate.value - k
    ensures forall k :: 0 <= k < |days| ==> days[k].calorieGoal == goal.calorieGoal && days[k].proteinGoal == goal.proteinGoal
  {
    var n := RangeLength(range, startDate, endDate, today);
    if HasCustomDates(range, startDate, endDate) then
      var days := seq(n, k => DayOf(history, endDate.value - k, goal));
      assert forall k :: 0 <= k < n ==> days[k] == DayOf(history, endDate.value - k, goal);
      days
    else
      var days := seq(n, k => DayOf(history, today - (n - 1) + k, goal));
      assert forall k :: 0 <= k < n ==> days[k] == DayOf(history, today - (n - 1) + k, goal);
      days
  }

  /** `fetchWeekData`'s loops and `days.reverse()`. */
  method BuildLegacyDays(range: LegacyRange, startDate: Option<int>, endDate: Option<int>, today: int, goal: Goal, history: seq<HistoryEntry>)
    returns (days: seq<DayData>)
    ensures days == LegacyDays(range, startDate, endDate, today, goal, history)
  {
    if range == Custom && startDate.Some? && endDate.Some? {
      days := FillForward(history, startDate.value, endDate.value - startDate.value + 1, goal);
    } else {
      days := FillBackward(history, today, TrailingCount(range), goal);
    }
    days := Reversed(days);
  }

  /** For the last 7 and the last 30 days the legacy sequence is the one the current tracker builds. */
  lemma LegacyTrailingAgrees(range: LegacyRange, startDate: Option<int>, endDate: Option<int>, today: int, goal: Goal, history: seq<HistoryEntry>)
    requires !HasCustomDates(range, startDate, endDate)
    ensures LegacyDays(range, startDate, endDate, today, goal, history) == RangeDays(range, startDate, endDate, today, goal, history)
  {
  }

  /**
   * A custom range comes out in reverse: the legacy sequence is the current
   * tracker's chronological one reversed.
   */
  lemma LegacyCustomReversed(range: LegacyRange, startDate: Option<int>, endDate: Option<int>, today: int, goal: Goal, history: seq<HistoryEntry>)
    requires HasCustomDates(range, startDate, endDate)
    ensures LegacyDays(range, startDate, endDate, today, goal, history) == Reversed(RangeDays(range, startDate, endDate, today, goal, history))
  {
    var l := LegacyDays(range, startDate, endDate, today, goal, history);
    var r := Reversed(RangeDays(range, startDate, endDate, today, goal, history));
    assert |l| == |r|;
    forall k | 0 <= k < |l| ensures l[k] == r[k] {
      assert r[k] == RangeDays(range, startDate, endDate, today, goal, history)[|l| - 1 - k];
    }
  }

  /** The reversed custom range, for the days 10 to 12: the dates come out 12, 11, 10. */
  lemma LegacyCustomExample(today: int, goal: Goal, history: seq<HistoryEntry>)
    ensures var days := LegacyDays(Custom, Some(10), Some(12), today, goal, history);
      |days| == 3 && days[0].date == 12 && days[1].date == 11 && days[2].date == 10
  {
  }

  /**
   * `weeklyAverage`: every day counts, future ones included; averages are
   * over the number of days and the percentages have no zero guard.
   */
  function WeeklyAverage(days: seq<DayData>): (s: StatsData)
    ensures |days| == 0 ==> s == ZeroStats
    ensures s.daysCount == |days|
    ensures s.totalCalories == SumConsumed(days, Calories) && s.totalProtein == SumConsumed(days, Protein)
    ensures s.totalCalorieGoal == SumGoals(days, Calories) && s.totalProteinGoal == SumGoals(days, Protein)
    ensures |days| > 0 ==> s.daysCount as real * s.calories == s.totalCalories
    ensures |days| > 0 ==> s.daysCount as real * s.protein == s.totalProtein
    ensures |days| > 0 ==> s.daysCount as real * s.avgCalorieGoal == s.totalCalorieGoal
    ensures |days| > 0 ==> s.daysCount as real * s.avgProteinGoal == s.totalProteinGoal
    ensures |days| > 0 ==> s.caloriePercent == Percent(s.totalCalories, s.totalCalorieGoal)
    ensures |days| > 0 ==> s.proteinPercent == Percent(s.totalProtein, s.totalProteinGoal)
  {
    if |days| == 0 then ZeroStats
    else
      var n := |days| as real;
      var calories := SumConsumed(days, Calories);
      var protein := SumConsumed(days, Protein);
      var calorieGoalTotal := SumGoals(days, Calories);
      var proteinGoalTotal := SumGoals(days, Protein);
      StatsData(
        calories / n, protein / n,
        Percent(calories, calorieGoalTotal), Percent(protein, proteinGoalTotal),
        calories, protein,
        calorieGoalTotal / n, proteinGoalTotal / n,
        calorieGoalTotal, proteinGoalTotal,
        |days|)
  }

  /** Outside the current week the current tracker's statistics are the legacy ones. */
  lemma StatsAgreeOutsideCurrentWeek(days: seq<DayData>, range: DateRange, today: int)
    requires range != CurrentWeek
    ensures CalculateStats(days, range, today) == WeeklyAverage(days)
  {
  }

  /** `getDateRangeText`: no label for a custom range missing a date. */
  function LegacyRangeLabel(range: LegacyRange, startDate: Option<int>, endDate: Option<int>): (text: RangeText)
    ensures range == Week <==> text == LastDays(7)
    ensures range == Month <==> text == LastDays(30)
    ensures text.CustomSpan? <==> HasCustomDates(range, startDate, endDate)
    ensures text.CustomSpan? ==> text.from == startDate.value && text.to == endDate.value
    ensures text.CustomSpan? ==> text.count == CustomDayCount(startDate.value, endDate.value)
    ensures range == Custom && !HasCustomDates(range, startDate, endDate) ==> text == NoText
  {
    if range == Week then LastDays(7)
    else if range == Month then LastDays(30)
    else if HasCustomDates(range, startDate, endDate) then
      CustomSpan(startDate.value, endDate.value, CustomDayCount(startDate.value, endDate.value))
    else NoText
  }

  /**
   * The custom label counts the days between the two dates whichever comes
   * first, so a reversed custom range is labelled with a count of days
   * although none are built.
   */
  lemma LegacyLabelCount(s: int, e: int, today: int)
    ensures LegacyRangeLabel(Custom, Some(s), Some(e)).count == LegacyRangeLabel(Custom, Some(e), Some(s)).count
    ensures s <= e ==> LegacyRangeLabel(Custom, Some(s), Some(e)).count == RangeLength(Custom, Some(s), Some(e), today)
    ensures e < s ==> LegacyRangeLabel(Custom, Some(s), Some(e)).count >= 2 && RangeLength(Custom, Some(s), Some(e), today) == 0
  {
  }

  /** The component's state. */
  class Tracker {
    var weekData: seq<DayData>
    var isLoading: bool
    var showDetails: bool
    var selectedDate: Option<int>
    var selectedStats: Option<DayStats>
    var dateRange: LegacyRange
    var showDropdown: bool
    var startDate: Option<int>
    var endDate: Option<int>
    var showTotalMetrics: bool

    constructor ()
      ensures weekData == [] && isLoading && !showDetails && selectedDate.None? && selectedStats.None?
      ensures dateRange == Week && !showDropdown && startDate.None? && endDate.None? && !showTotalMetrics
    {
      weekData := [];
      isLoading := true;
      showDetails := false;
      selectedDate := None;
      selectedStats := None;
      dateRange := Week;
      showDropdown := false;
      startDate := None;
      endDate := None;
      showTotalMetrics := false;
    }

    /**
     * `fetchWeekData`: resolves the goal, obtains the history through its
     * fallbacks (the outcomes and the random draws are parameters), builds
     * the days and stores them.
     */
    method FetchWeekData(today: int, goalFetch: Fetch<Option<DailyGoal>>, history: HistoryOutcome, mock: MockOutcome, draws: seq<MockHistory.Draw>)
      requires |draws| >= 30
      modifies this
      ensures var goal := ResolveGoal(goalFetch);
        weekData == LegacyDays(dateRange, startDate, endDate, today, goal, LegacyHistoryData(history, mock, today, goal, draws))
      ensures !isLoading
      ensures dateRange == old(dateRange) && startDate == old(startDate) && endDate == old(endDate)
      ensures showDetails == old(showDetails) && selectedDate == old(selectedDate) && selectedStats == old(selectedStats)
      ensures showDropdown == old(showDropdown) && showTotalMetrics == old(showTotalMetrics)
    {
      isLoading := true;
      var currentGoal := Goal(DefaultCalorieGoal, DefaultProteinGoal);
      if goalFetch.Fetched? && goalFetch.body.Some? {
        var g := goalFetch.body.value;
        currentGoal := Goal(OrDefault(g.calorieGoal, DefaultCalorieGoal), OrDefault(g.proteinGoal, DefaultProteinGoal));
      }
      var historyData: seq<HistoryEntry> := [];
      if history.HistoryArray? {
        historyData := history.entries;
      } else if history.HistoryNotArray? && !mock.MockThrew? {
        historyData := if mock.MockOk? then mock.entries else [];
      } else if mock.MockOk? {
        historyData := mock.entries;
      } else {
        historyData := RandomHistory(today, currentGoal, draws);
      }
      var days := BuildLegacyDays(dateRange, startDate, endDate, today, currentGoal, historyData);
      weekData := days;
      isLoading := false;
    }

    /** `handleDayClick`. */
    method HandleDayClick(day: DayData)
      modifies this
      ensures selectedDate == Some(day.date)
      ensures selectedStats == Some(DayStats(day.caloriesConsumed, day.proteinConsumed, day.calorieGoal, day.proteinGoal))
      ensures showDetails
      ensures weekData == old(weekData) && dateRange == old(dateRange) && startDate == old(startDate) && endDate == old(endDate)
      ensures isLoading == old(isLoading) && showDropdown == old(showDropdown) && showTotalMetrics == old(showTotalMetrics)
    {
      selectedDate := Some(day.date);
      selectedStats := Some(DayStats(day.caloriesConsumed, day.proteinConsumed, day.calorieGoal, day.proteinGoal));
      showDetails := true;
    }

    /** `closeDetails`. */
    method CloseDetails()
      modifies this
      ensures !showDetails && selectedDate.None? && selectedStats.None?
      ensures weekData == old(weekData) && dateRange == old(dateRange) && startDate == old(startDate) && endDate == old(endDate)
      ensures isLoading == old(isLoading) && showDropdown == old(showDropdown) && showTotalMetrics == old(showTotalMetrics)
    {
      showDetails := false;
      selectedDate := None;
      selectedStats := None;
    }

    /** `handleRangeChange`: as in the current tracker, the custom range is seeded with a week ago to today. */
    method HandleRangeChange(range: LegacyRange, today: int)
      modifies this
      ensures dateRange == range && !showDropdown
      ensures range == Custom && old(startDate).None? && old(endDate).None? ==>
        startDate == Some(today - 7) && endDate == Some(today)
      ensures !(range == Custom && old(startDate).None? && old(endDate).None?) ==>
        startDate == old(startDate) && endDate == old(endDate)
      ensures weekData == old(weekData) && showTotalMetrics == old(showTotalMetrics)
      ensures isLoading == old(isLoading) && showDetails == old(showDetails)
      ensures selectedDate == old(selectedDate) && selectedStats == old(selectedStats)
    {
      dateRange := range;
      showDropdown := false;
      if range == Custom && startDate.None? && endDate.None? {
        startDate := Some(today - 7);
        endDate := Some(today);
      }
    }

    /** `handleCustomRangeSubmit`: refetches only when both custom dates are set. */
    method HandleCustomRangeSubmit(today: int, goalFetch: Fetch<Option<DailyGoal>>, history: HistoryOutcome, mock: MockOutcome, draws: seq<MockHistory.Draw>)
      returns (fetched: bool)
      requires |draws| >= 30
      modifies this
      ensures fetched <==> startDate.Some? && endDate.Some?
      ensures fetched ==> var goal := ResolveGoal(goalFetch);
        weekData == LegacyDays(dateRange, startDate, endDate, today, goal, LegacyHistoryData(history, mock, today, goal, draws))
      ensures fetched ==> !isLoading
      ensures !fetched ==> weekData == old(weekData) && isLoading == old(isLoading)
      ensures dateRange == old(dateRange) && startDate == old(startDate) && endDate == old(endDate)
      ensures showDetails == old(showDetails) && selectedDate == old(selectedDate) && selectedStats == old(selectedStats)
      ensures showDropdown == old(showDropdown) && showTotalMetrics == old(showTotalMetrics)
    {
      fetched := startDate.Some? && endDate.Some?;
      if fetched {
        FetchWeekData(today, goalFetch, history, mock, draws);
      }
    }

    /** The statistics the cards show: the sums over every stored day, future ones included. */
    function Stats(): (s: StatsData)
      reads this
      ensures s.daysCount == |weekData|
      ensures s.totalCalories == SumConsumed(weekData, Calories) && s.totalProtein == SumConsumed(weekData, Protein)
      ensures s.totalCalorieGoal == SumGoals(weekData, Calories) && s.totalProteinGoal == SumGoals(weekData, Protein)
      ensures weekData == [] ==> s == ZeroStats
    {
      WeeklyAverage(weekData)
    }

    /** `weekData.slice(-7)`: the day circles. */
    function Circles(): (r: seq<DayData>)
      reads this
      ensures |r| == if |weekData| < 7 then |weekData| else 7
      ensures forall k :: 0 <= k < |r| ==> r[k] == weekData[|weekData| - |r| + k]
    {
      LastSeven(weekData)
    }
  }
}
