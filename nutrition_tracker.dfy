/**
 * The dashboard's nutrition tracker: today's totals and what remains of the
 * goal, and the form that records a consumption and then refreshes them.
 */
module NutritionTracker {
  import opened Wrappers
  import opened Parsing
  import opened Records
  import opened Bucketing

  datatype DailyStats = DailyStats(totalCalories: real, totalProtein: real, remainingCalories: real, remainingProtein: real)

  const ZeroDailyStats := DailyStats(0.0, 0.0, 0.0, 0.0)

  /**
   * The new statistics: the `reduce` totals of `perUnit * quantity` over
   * today's consumptions, and the goal minus each total, which goes below
   * zero once the goal is exceeded.
   */
  function StatsFor(goal: DailyGoal, rows: seq<Row>): (s: DailyStats)
    ensures s.totalCalories == Total(rows, Calories) && s.totalProtein == Total(rows, Protein)
    ensures s.remainingCalories + s.totalCalories == goal.calorieGoal
    ensures s.remainingProtein + s.totalProtein == goal.proteinGoal
    ensures rows == [] ==> s.totalCalories == 0.0 && s.remainingCalories == goal.calorieGoal
  {
    var calories := Total(rows, Calories);
    var protein := Total(rows, Protein);
    DailyStats(calories, protein, goal.calorieGoal - calories, goal.proteinGoal - protein)
  }

  function GoalFor(goal: DailyGoal, n: Nutrient): real
  {
    match n
    case Calories => goal.calorieGoal
    case Protein => goal.proteinGoal
  }

  function RemainingOf(s: DailyStats, n: Nutrient): real
  {
    match n
    case Calories => s.remainingCalories
    case Protein => s.remainingProtein
  }

  /**
   * Nothing clamps the remainder: once one of today's consumptions alone
   * exceeds the goal, and none counts negatively, what remains is below zero.
   */
  lemma RemainingGoesNegative(goal: DailyGoal, rows: seq<Row>, n: Nutrient, i: int)
    requires 0 <= i < |rows|
    requires forall k :: 0 <= k < |rows| ==> Amount(rows[k], n) >= 0.0
    requires Amount(rows[i], n) > GoalFor(goal, n)
    ensures RemainingOf(StatsFor(goal, rows), n) < 0.0
  {
    TotalCoversRow(rows, n, i);
  }

  /** A sum of non-negative amounts is at least each of them. */
  lemma {:induction false} TotalCoversRow(rows: seq<Row>, n: Nutrient, i: int)
    requires 0 <= i < |rows|
    requires forall k :: 0 <= k < |rows| ==> Amount(rows[k], n) >= 0.0
    ensures Total(rows, n) >= Amount(rows[i], n)
  {
    var p := rows[..|rows| - 1];
    if i == |rows| - 1 {
      TotalNonNegative(p, n);
    } else {
      assert p[i] == rows[i];
      TotalCoversRow(p, n, i);
    }
  }

  lemma {:induction false} TotalNonNegative(rows: seq<Row>, n: Nutrient)
    requires forall k :: 0 <= k < |rows| ==> Amount(rows[k], n) >= 0.0
    ensures Total(rows, n) >= 0.0
  {
    if rows != [] {
      TotalNonNegative(rows[..|rows| - 1], n);
    }
  }

  /** The body of the POST that records a consumption: `parseFloat` of a non-number is sent as null. */
  datatype ConsumptionRequest = ConsumptionRequest(foodId: string, quantity: Option<real>)

  class Tracker {
    var foods: seq<Food>
    var selectedFood: string
    var quantity: string
    var dailyStats: DailyStats

    constructor ()
      ensures foods == [] && selectedFood == "" && quantity == "" && dailyStats == ZeroDailyStats
    {
      foods := [];
      selectedFood := "";
      quantity := "";
      dailyStats := ZeroDailyStats;
    }

    /**
     * `refreshDailyStats`: needs the goal and today's consumptions; a failed
     * request, or no goal at all (reading its fields throws), leaves the
     * statistics as they were.
     */
    method RefreshDailyStats(goal: Fetch<Option<DailyGoal>>, consumptions: Fetch<seq<Row>>) returns (refreshed: bool)
      modifies this
      ensures refreshed <==> goal.Fetched? && goal.body.Some? && consumptions.Fetched?
      ensures refreshed ==> dailyStats == StatsFor(goal.body.value, consumptions.body)
      ensures !refreshed ==> dailyStats == old(dailyStats)
      ensures foods == old(foods) && selectedFood == old(selectedFood) && quantity == old(quantity)
    {
      refreshed := false;
      if goal.Failed? {
        return;
      }
      if consumptions.Failed? {
        return;
      }
      if goal.body.None? {
        return;
      }
      var g := goal.body.value;
      var totals := StatsFor(g, consumptions.body);
      dailyStats := DailyStats(totals.totalCalories, totals.totalProtein, g.calorieGoal - totals.totalCalories, g.proteinGoal - totals.totalProtein);
      refreshed := true;
    }

    /** `fetchFoods`: the foods, or none when the request fails. */
    method FetchFoods(response: Fetch<seq<Food>>)
      modifies this
      ensures foods == (if response.Fetched? then response.body else [])
      ensures selectedFood == old(selectedFood) && quantity == old(quantity) && dailyStats == old(dailyStats)
    {
      if response.Fetched? {
        foods := response.body;
      } else {
        foods := [];
      }
    }

    /**
     * `handleConsumption`: nothing without a food and a quantity; otherwise
     * the request is sent, and only when it succeeds are the statistics
     * refreshed and both fields cleared.
     */
    method HandleConsumption(posted: bool, goal: Fetch<Option<DailyGoal>>, consumptions: Fetch<seq<Row>>)
      returns (request: Option<ConsumptionRequest>)
      modifies this
      ensures request.Some? <==> old(selectedFood) != "" && old(quantity) != ""
      ensures request.Some? ==> request.value == ConsumptionRequest(old(selectedFood), ParseFloat(old(quantity)))
      ensures request.Some? && posted ==> selectedFood == "" && quantity == ""
      ensures request.Some? && posted && goal.Fetched? && goal.body.Some? && consumptions.Fetched? ==>
        dailyStats == StatsFor(goal.body.value, consumptions.body)
      ensures !(request.Some? && posted && goal.Fetched? && goal.body.Some? && consumptions.Fetched?) ==>
        dailyStats == old(dailyStats)
      ensures !(request.Some? && posted) ==> selectedFood == old(selectedFood) && quantity == old(quantity)
      ensures foods == old(foods)
    {
      if selectedFood == "" || quantity == "" {
        return None;
      }
      request := Some(ConsumptionRequest(selectedFood, ParseFloat(quantity)));
      if !posted {
        return;
      }
      var _ := RefreshDailyStats(goal, consumptions);
      selectedFood := "";
      quantity := "";
    }
  }
}
