/**
 * The collapsed summary: the calorie and protein figures against their goals,
 * as totals or as daily averages, with the range percentages.
 */
module CollapsedSummary {
  import opened JsNum
  import opened Records
  import StatsCard
  import ProgressTracker

  datatype Summary = Summary(
    calorieValue: int, proteinValue: int,
    calorieGoal: int, proteinGoal: int,
    caloriePercent: JsNumber, proteinPercent: JsNumber,
    perDay: bool)

  function View(stats: StatsData, showTotalMetrics: bool): (s: Summary)
    ensures s.caloriePercent == stats.caloriePercent && s.proteinPercent == stats.proteinPercent
    ensures s.perDay <==> !showTotalMetrics
    ensures showTotalMetrics ==> s.calorieGoal == Round(stats.totalCalorieGoal) && s.proteinGoal == Round(stats.totalProteinGoal)
    ensures !showTotalMetrics ==> s.calorieGoal == Round(stats.avgCalorieGoal) && s.proteinGoal == Round(stats.avgProteinGoal)
  {
    Summary(
      if showTotalMetrics then Round(stats.totalCalories) else Round(stats.calories),
      if showTotalMetrics then Round(stats.totalProtein) else Round(stats.protein),
      if showTotalMetrics then Round(stats.totalCalorieGoal) else Round(stats.avgCalorieGoal),
      if showTotalMetrics then Round(stats.totalProteinGoal) else Round(stats.avgProteinGoal),
      stats.caloriePercent, stats.proteinPercent,
      !showTotalMetrics)
  }

  /** The summary shows the same figures as the two statistics cards. */
  lemma SummaryMatchesCards(stats: StatsData, showTotalMetrics: bool)
    ensures var s := View(stats, showTotalMetrics);
      && s.calorieValue == StatsCard.View(stats, showTotalMetrics, StatsCard.CaloriesCard).value
      && s.proteinValue == StatsCard.View(stats, showTotalMetrics, StatsCard.ProteinCard).value
      && RoundNumber(s.caloriePercent) == StatsCard.View(stats, showTotalMetrics, StatsCard.CaloriesCard).percentShown
      && RoundNumber(s.proteinPercent) == StatsCard.View(stats, showTotalMetrics, StatsCard.ProteinCard).percentShown
  {
  }

  /** The percentages do not depend on the toggle. */
  lemma PercentsIgnoreToggle(stats: StatsData)
    ensures View(stats, true).caloriePercent == View(stats, false).caloriePercent
    ensures View(stats, true).proteinPercent == View(stats, false).proteinPercent
  {
  }

  /**
   * Over the tracker's statistics the goal shown in totals mode is the daily
   * goal shown in averages mode times the number of days counted, rounded.
   */
  lemma TotalGoalIsDailyGoalTimesDays(days: seq<DayData>, range: DateRange, today: int)
    ensures var stats := ProgressTracker.CalculateStats(days, range, today);
      && View(stats, true).calorieGoal == Round(stats.daysCount as real * stats.avgCalorieGoal)
      && View(stats, true).proteinGoal == Round(stats.daysCount as real * stats.avgProteinGoal)
      && View(stats, true).calorieValue == Round(stats.daysCount as real * stats.calories)
  {
  }
}
