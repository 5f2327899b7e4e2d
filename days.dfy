/**
 * What both progress trackers share: the goal they apply, the gap-filling of
 * one day from the fetched history, the two loops that push consecutive days,
 * the sums over a sequence of days and the slice of days on display.
 */
module Days {
  import opened Wrappers
  import opened JsNum
  import opened Records

  const DefaultCalorieGoal: real := 2000.0
  const DefaultProteinGoal: real := 120.0

  /** `x || d` on a number: a zero is replaced by `d`. */
  function OrDefault(x: real, d: real): real
  {
    if x != 0.0 then x else d
  }

  /**
   * The goal a tracker applies to every day: the defaults when the goal
   * request fails or the user has no goal; otherwise the fetched goal with a
   * zero field replaced by its default.
   */
  function ResolveGoal(f: Fetch<Option<DailyGoal>>): (g: Goal)
    ensures g.calorieGoal != 0.0 && g.proteinGoal != 0.0
    ensures f.Failed? || f.body.None? ==> g == Goal(DefaultCalorieGoal, DefaultProteinGoal)
    ensures f.Fetched? && f.body.Some? && f.body.value.calorieGoal != 0.0 ==> g.calorieGoal == f.body.value.calorieGoal
    ensures f.Fetched? && f.body.Some? && f.body.value.proteinGoal != 0.0 ==> g.proteinGoal == f.body.value.proteinGoal
    ensures f.Fetched? && f.body.Some? && f.body.value.calorieGoal == 0.0 ==> g.calorieGoal == DefaultCalorieGoal
    ensures f.Fetched? && f.body.Some? && f.body.value.proteinGoal == 0.0 ==> g.proteinGoal == DefaultProteinGoal
  {
    var g := Goal(DefaultCalorieGoal, DefaultProteinGoal);
    match f
    case Failed => g
    case Fetched(None) => g
    case Fetched(Some(goal)) =>
      Goal(OrDefault(goal.calorieGoal, DefaultCalorieGoal), OrDefault(goal.proteinGoal, DefaultProteinGoal))
  }

  /** `history.find(d => d.date === date)`: the first entry for the day, if any. */
  function FirstMatch(history: seq<HistoryEntry>, date: int): (r: Option<HistoryEntry>)
    ensures r.Some? ==> exists i :: (0 <= i < |history| && history[i] == r.value && r.value.date == date &&
      forall j :: 0 <= j < i ==> history[j].date != date)
    ensures r.None? ==> forall i :: 0 <= i < |history| ==> history[i].date != date
  {
    if history == [] then None
    else if history[0].date == date then Some(history[0])
    else
      var r := FirstMatch(history[1..], date);
      assert forall i :: 0 <= i < |history[1..]| ==> history[1..][i] == history[i + 1];
      r
  }

  /** One day as a tracker builds it: the first entry for the day, or zeros, against the goal. */
  function DayOf(history: seq<HistoryEntry>, date: int, goal: Goal): (d: DayData)
    ensures d.date == date && d.calorieGoal == goal.calorieGoal && d.proteinGoal == goal.proteinGoal
  {
    match FirstMatch(history, date)
    case Some(e) => DayData(date, e.calories, e.protein, goal.calorieGoal, goal.proteinGoal)
    case None => DayData(date, 0.0, 0.0, goal.calorieGoal, goal.proteinGoal)
  }

  /** Gap-filling: a day without an entry has nothing consumed; every day carries the goal. */
  lemma DayOfFillsGaps(history: seq<HistoryEntry>, date: int, goal: Goal)
    ensures var d := DayOf(history, date, goal);
      && d.date == date && d.calorieGoal == goal.calorieGoal && d.proteinGoal == goal.proteinGoal
      && ((forall i :: 0 <= i < |history| ==> history[i].date != date) ==> d.caloriesConsumed == 0.0 && d.proteinConsumed == 0.0)
      && (forall i :: 0 <= i < |history| && history[i].date == date && (forall j :: 0 <= j < i ==> history[j].date != date) ==>
        d.caloriesConsumed == history[i].calories && d.proteinConsumed == history[i].protein)
  {
    var r := FirstMatch(history, date);
    if r.Some? {
      var i :| 0 <= i < |history| && history[i] == r.value && r.value.date == date &&
        (forall j :: 0 <= j < i ==> history[j].date != date);
      forall i' | 0 <= i' < |history| && history[i'].date == date && (forall j :: 0 <= j < i' ==> history[j].date != date)
        ensures i' == i
      {
      }
    }
  }

  /** The loop `for (i = 0; i < count; i++)` pushing day `start + i`. */
  method FillForward(history: seq<HistoryEntry>, start: int, count: int, goal: Goal) returns (days: seq<DayData>)
    ensures |days| == if count > 0 then count else 0
    ensures forall k :: 0 <= k < |days| ==> days[k] == DayOf(history, start + k, goal)
  {
    days := [];
    var i := 0;
    while i < count
      invariant |days| == i && (i <= count || i == 0)
      invariant forall k :: 0 <= k < i ==> days[k] == DayOf(history, start + k, goal)
    {
      days := days + [DayOf(history, start + i, goal)];
      i := i + 1;
    }
  }

  /** The loop `for (i = 0; i < count; i++)` pushing day `today - i`: newest first. */
  method FillBackward(history: seq<HistoryEntry>, today: int, count: nat, goal: Goal) returns (days: seq<DayData>)
    ensures |days| == count
    ensures forall k :: 0 <= k < count ==> days[k] == DayOf(history, today - k, goal)
  {
    days := [];
    var i := 0;
    while i < count
      invariant |days| == i <= count
      invariant forall k :: 0 <= k < i ==> days[k] == DayOf(history, today - k, goal)
    {
      days := days + [DayOf(history, today - i, goal)];
      i := i + 1;
    }
  }

  function DayDate(d: DayData): int { d.date }

  function Consumed(d: DayData, n: Nutrient): real
  {
    match n
    case Calories => d.caloriesConsumed
    case Protein => d.proteinConsumed
  }

  function GoalOf(d: DayData, n: Nutrient): real
  {
    match n
    case Calories => d.calorieGoal
    case Protein => d.proteinGoal
  }

  /** The `reduce` totals: what was consumed over the days, and the goals added up. */
  function SumConsumed(ds: seq<DayData>, n: Nutrient): real
  {
    if ds == [] then 0.0 else SumConsumed(ds[..|ds| - 1], n) + Consumed(ds[|ds| - 1], n)
  }

  function SumGoals(ds: seq<DayData>, n: Nutrient): real
  {
    if ds == [] then 0.0 else SumGoals(ds[..|ds| - 1], n) + GoalOf(ds[|ds| - 1], n)
  }

  /** Days that all carry the same goal add up to that goal times their number. */
  lemma {:induction false} UniformGoals(ds: seq<DayData>, n: Nutrient, g: real)
    requires forall k :: 0 <= k < |ds| ==> GoalOf(ds[k], n) == g
    ensures SumGoals(ds, n) == |ds| as real * g
  {
    if ds != [] {
      UniformGoals(ds[..|ds| - 1], n, g);
    }
  }

  /** `(total / goalTotal) * 100`, with no guard against a zero goal total. */
  function Percent(total: real, goalTotal: real): (p: JsNumber)
    ensures goalTotal != 0.0 ==> p == Finite(total / goalTotal * 100.0)
    ensures goalTotal == 0.0 ==> !p.Finite?
  {
    Scale(Div(total, goalTotal), 100.0)
  }

  const ZeroStats := StatsData(0.0, 0.0, Finite(0.0), Finite(0.0), 0.0, 0.0, 0.0, 0.0, 0.0, 0.0, 0)

  /** `weekData.slice(-7)`: the last seven days, or all of them when there are fewer. */
  function LastSeven<T>(s: seq<T>): (r: seq<T>)
    ensures |r| == if |s| < 7 then |s| else 7
    ensures forall k :: 0 <= k < |r| ==> r[k] == s[|s| - |r| + k]
  {
    if |s| <= 7 then s else s[|s| - 7..]
  }

  /** What the range label says. */
  datatype RangeText = WeekSpan(from: int, to: int) | LastDays(n: nat) | CustomSpan(from: int, to: int, count: nat) | NoText

  /**
   * The day count in the custom range label:
   * `Math.ceil(Math.abs(end - start) / day) + 1`, the days from one date to
   * the other inclusive, whichever comes first.
   */
  function CustomDayCount(start: int, end: int): (n: nat)
    ensures n >= 1
    ensures start <= end ==> n == end - start + 1
    ensures end <= start ==> n == start - end + 1
  {
    (if end >= start then end - start else start - end) + 1
  }
}
