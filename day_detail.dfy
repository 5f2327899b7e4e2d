/**
 * The detail dialog of one day: the day's calories and protein against its
 * goals, with rounded percentages and bars capped at full width.
 */
module DayDetail {
  import opened Wrappers
  import opened JsNum
  import opened Records
  import DayCircle

  /** `Math.round(consumed / goal * 100)`, with no guard against a zero goal. */
  function RoundedPercent(consumed: real, goal: real): (p: JsNumber)
    ensures goal != 0.0 ==> p == Finite(Round(consumed / goal * 100.0) as real)
    ensures goal == 0.0 ==> !p.Finite?
    ensures goal == 0.0 && consumed == 0.0 ==> p.NaN?
  {
    RoundNumber(Scale(Div(consumed, goal), 100.0))
  }

  datatype Detail = Detail(
    caloriePercent: JsNumber, proteinPercent: JsNumber,
    calorieBar: JsNumber, proteinBar: JsNumber,
    caloriesShown: int, calorieGoal: real,
    proteinShown: int, proteinGoal: real)

  /** Nothing when the dialog is closed. */
  function View(isOpen: bool, stats: DayStats): (d: Option<Detail>)
    ensures d.Some? <==> isOpen
    ensures d.Some? ==>
      && d.value.caloriePercent == RoundedPercent(stats.caloriesConsumed, stats.calorieGoal)
      && d.value.proteinPercent == RoundedPercent(stats.proteinConsumed, stats.proteinGoal)
      && d.value.calorieBar == Min(d.value.caloriePercent, 100.0)
      && d.value.proteinBar == Min(d.value.proteinPercent, 100.0)
      && d.value.calorieGoal == stats.calorieGoal && d.value.proteinGoal == stats.proteinGoal
      && d.value.caloriesShown == Round(stats.caloriesConsumed) && d.value.proteinShown == Round(stats.proteinConsumed)
  {
    if !isOpen then None
    else
      var caloriePercent := RoundedPercent(stats.caloriesConsumed, stats.calorieGoal);
      var proteinPercent := RoundedPercent(stats.proteinConsumed, stats.proteinGoal);
      Some(Detail(
        caloriePercent, proteinPercent,
        Min(caloriePercent, 100.0), Min(proteinPercent, 100.0),
        Round(stats.caloriesConsumed), stats.calorieGoal,
        Round(stats.proteinConsumed), stats.proteinGoal))
  }

  /** A bar is never wider than full, and it is full once the rounded percentage reaches 100. */
  lemma BarsCapped(stats: DayStats)
    requires stats.calorieGoal != 0.0
    ensures var d := View(true, stats).value;
      && d.calorieBar.Finite? && d.calorieBar.value <= 100.0
      && (d.caloriePercent.value >= 100.0 ==> d.calorieBar.value == 100.0)
  {
  }

  /**
   * For a positive goal the dialog shows the circle's percentage rounded;
   * for a zero goal the circle shows 0 and the dialog a number that is not
   * finite.
   */
  lemma DetailAgreesWithCircle(consumed: real, goal: real)
    ensures goal > 0.0 ==> RoundedPercent(consumed, goal) == Finite(Round(DayCircle.GuardedPercent(consumed, goal)) as real)
    ensures goal == 0.0 ==> DayCircle.GuardedPercent(consumed, goal) == 0.0 && !RoundedPercent(consumed, goal).Finite?
  {
  }
}
