/**
 * One day circle of the tracker: two rings filled to the day's calorie and
 * protein percentages, a weekday letter, and a click that opens the day's
 * detail unless the day is in the future.
 */
module DayCircle {
  import opened Wrappers
  import opened Calendar
  import opened Records

  /** `goal > 0 ? consumed / goal * 100 : 0`. */
  function GuardedPercent(consumed: real, goal: real): (p: real)
    ensures goal > 0.0 ==> p * goal == consumed * 100.0
    ensures goal <= 0.0 ==> p == 0.0
    ensures goal > 0.0 && consumed >= 0.0 ==> p >= 0.0
  {
    if goal > 0.0 then consumed / goal * 100.0 else 0.0
  }

  /** The first letter of a weekday's name, Monday first. */
  function WeekdayLetter(w: int): (c: char)
    requires 0 <= w < 7
    ensures c in "MTWFS"
  {
    "MTWTFSS"[w]
  }

  /**
   * The label: in the current week the `index`-th of M T W T F S S
   * (nothing past the seventh circle), otherwise the first letter of the
   * day's own weekday.
   */
  function Label(range: DateRange, index: nat, date: int): (l: Option<char>)
    ensures range != CurrentWeek ==> l == Some(WeekdayLetter(Weekday(date)))
    ensures range == CurrentWeek ==> (l.Some? <==> index < 7)
  {
    if range == CurrentWeek then (if index < 7 then Some(WeekdayLetter(index)) else None)
    else Some(WeekdayLetter(Weekday(date)))
  }

  /**
   * In the current week the label chosen by position is the day's own
   * weekday letter, since circle `k` shows the `k`-th day from Monday.
   */
  lemma CurrentWeekLabels(today: int, k: nat)
    requires k < 7
    ensures Label(CurrentWeek, k, StartOfWeek(today) + k) == Label(Week, k, StartOfWeek(today) + k)
  {
    WeekdayInWeek(StartOfWeek(today), k);
  }

  /** `isAfter(parseISO(day.date), new Date())`: the day's local midnight is after now. */
  predicate IsFuture(date: int, today: int)
  {
    date > today
  }

  /** `handleClick`: forwards the day unless it is in the future. */
  function Click(day: DayData, today: int): (r: Option<DayData>)
    ensures r.Some? <==> day.date <= today
    ensures r.Some? ==> r.value == day
  {
    if IsFuture(day.date, today) then None else Some(day)
  }

  /** The ring's shade: dim for a future day, light once the goal is reached. */
  datatype Shade = Dim | Light | Normal

  function RingShade(future: bool, percent: real): (s: Shade)
    ensures future <==> s == Dim
    ensures !future ==> (s == Light <==> percent >= 100.0)
  {
    if future then Dim else if percent >= 100.0 then Light else Normal
  }

  /** `Math.min(percent / 100, 1)`. */
  function RingFill(percent: real): (f: real)
    ensures f <= 1.0
    ensures percent <= 100.0 ==> f == percent / 100.0
    ensures percent >= 100.0 ==> f == 1.0
  {
    if percent / 100.0 <= 1.0 then percent / 100.0 else 1.0
  }

  datatype Circle = Circle(letter: Option<char>, future: bool, calorieFill: real, proteinFill: real, calorieShade: Shade, proteinShade: Shade)

  function View(day: DayData, index: nat, range: DateRange, today: int): (c: Circle)
    ensures c.future <==> day.date > today
    ensures c.letter == Label(range, index, day.date)
    ensures c.calorieFill == RingFill(GuardedPercent(day.caloriesConsumed, day.calorieGoal))
    ensures c.proteinFill == RingFill(GuardedPercent(day.proteinConsumed, day.proteinGoal))
  {
    var future := IsFuture(day.date, today);
    var caloriePercent := GuardedPercent(day.caloriesConsumed, day.calorieGoal);
    var proteinPercent := GuardedPercent(day.proteinConsumed, day.proteinGoal);
    Circle(Label(range, index, day.date), future, RingFill(caloriePercent), RingFill(proteinPercent),
      RingShade(future, caloriePercent), RingShade(future, proteinPercent))
  }

  /**
   * For a past or present day with a positive goal the ring is light exactly
   * when the goal is reached, and full exactly then.
   */
  lemma LightMeansGoalReached(day: DayData, index: nat, range: DateRange, today: int)
    requires day.date <= today && day.calorieGoal > 0.0
    ensures var c := View(day, index, range, today);
      && (c.calorieShade == Light <==> day.caloriesConsumed >= day.calorieGoal)
      && (c.calorieFill == 1.0 <==> day.caloriesConsumed >= day.calorieGoal)
  {
    var p := GuardedPercent(day.caloriesConsumed, day.calorieGoal);
    assert p * day.calorieGoal == day.caloriesConsumed * 100.0;
    if day.caloriesConsumed >= day.calorieGoal {
      assert p * day.calorieGoal >= 100.0 * day.calorieGoal;
    } else {
      assert p * day.calorieGoal < 100.0 * day.calorieGoal;
    }
  }
}
