/**
 * The statistics card of one nutrient: the range percentage in a ring, the
 * total or the daily average as the headline figure, and a footer with the
 * target or the total.
 */
module StatsCard {
  import opened JsNum
  import opened Records

  /** `type`: `'calories'` shows the calorie fields, anything else the protein fields. */
  datatype CardType = CaloriesCard | ProteinCard

  /** The four figures a card reads from the statistics. */
  datatype Figures = Figures(percent: JsNumber, total: real, average: real, totalGoal: real)

  function FiguresOf(stats: StatsData, kind: CardType): (f: Figures)
    ensures kind == CaloriesCard ==>
      f == Figures(stats.caloriePercent, stats.totalCalories, stats.calories, stats.totalCalorieGoal)
    ensures kind == ProteinCard ==>
      f == Figures(stats.proteinPercent, stats.totalProtein, stats.protein, stats.totalProteinGoal)
  {
    if kind == CaloriesCard then Figures(stats.caloriePercent, stats.totalCalories, stats.calories, stats.totalCalorieGoal)
    else Figures(stats.proteinPercent, stats.totalProtein, stats.protein, stats.totalProteinGoal)
  }

  /** The footer line: the target over the days in totals mode, the total otherwise. */
  datatype Footer = Target(goal: int, days: nat) | TotalLine(total: int)

  /** What the card shows. */
  datatype Card = Card(
    heading: string,
    ringFill: JsNumber,
    percentShown: JsNumber,
    value: int,
    unit: string,
    caption: string,
    footer: Footer)

  /** `displayValue`: the rounded total in totals mode, the rounded average otherwise. */
  function DisplayValue(total: real, average: real, showTotalMetrics: bool): (v: int)
    ensures showTotalMetrics ==> v as real - 1.0 / 2.0 <= total < v as real + 1.0 / 2.0
    ensures !showTotalMetrics ==> v as real - 1.0 / 2.0 <= average < v as real + 1.0 / 2.0
  {
    if showTotalMetrics then Round(total) else Round(average)
  }

  /** `Math.min(percent / 100, 1)`: the filled part of the ring. */
  function RingFill(percent: JsNumber): (r: JsNumber)
    ensures r.Finite? ==> r.value <= 1.0
    ensures percent.Finite? ==> r.Finite? && (percent.value <= 100.0 ==> r.value == percent.value / 100.0)
    ensures percent.Finite? && percent.value >= 100.0 ==> r == Finite(1.0)
    ensures percent.NaN? ==> r.NaN?
  {
    Min(Scale(percent, 1.0 / 100.0), 1.0)
  }

  function View(stats: StatsData, showTotalMetrics: bool, kind: CardType): (c: Card)
    ensures var f := FiguresOf(stats, kind);
      && c.value == DisplayValue(f.total, f.average, showTotalMetrics)
      && c.percentShown == RoundNumber(f.percent)
      && c.ringFill == RingFill(f.percent)
      && (showTotalMetrics ==> c.footer == Target(Round(f.totalGoal), stats.daysCount))
      && (!showTotalMetrics ==> c.footer == TotalLine(Round(f.total)))
    ensures c.unit == "g" <==> kind == ProteinCard
    ensures c.unit == "" <==> kind == CaloriesCard
  {
    var isCalories := kind == CaloriesCard;
    var f := FiguresOf(stats, kind);
    var unit := if isCalories then "" else "g";
    var unitText := if isCalories then "calories" else "grams";
    var name := if isCalories then "Calories" else "Protein";
    Card(
      if showTotalMetrics then "Total " + name else "Avg. Daily " + name,
      RingFill(f.percent),
      RoundNumber(f.percent),
      DisplayValue(f.total, f.average, showTotalMetrics),
      unit,
      if showTotalMetrics then unitText + " total" else (if isCalories then "cal" else "g") + "/day",
      if showTotalMetrics then Target(Round(f.totalGoal), stats.daysCount) else TotalLine(Round(f.total)))
  }

  /** The toggle changes the figure and the footer but never the percentage or the ring. */
  lemma PercentIgnoresToggle(stats: StatsData, kind: CardType)
    ensures View(stats, true, kind).percentShown == View(stats, false, kind).percentShown
    ensures View(stats, true, kind).ringFill == View(stats, false, kind).ringFill
  {
  }

  /**
   * In averages mode the footer's total and, in totals mode, the headline
   * figure are the same rounded total.
   */
  lemma TotalShownEitherWay(stats: StatsData, kind: CardType)
    ensures View(stats, true, kind).value == View(stats, false, kind).footer.total
  {
  }
}
