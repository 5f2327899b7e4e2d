/**
 * The entities of the tracker: the three tables a user owns (foods,
 * consumptions, daily goals), the rows the queries return with their food
 * included, and the records the progress tracker passes between its parts
 * (`DayData`, `StatsData`, the range kinds).
 */
module Records {
  import opened Wrappers
  import opened JsNum

  /** Record ids are generated by the store; users are identified by their session id. */
  type Id = nat
  type UserId = string

  datatype Food = Food(id: Id, name: string, caloriesPerUnit: real, proteinPerUnit: real, userId: UserId)

  /** One logged eating event; `date` is an instant (milliseconds since the epoch). */
  datatype Consumption = Consumption(id: Id, userId: UserId, foodId: Id, quantity: real, date: int)

  /** One goal record; the current goal is the user's latest by `date`. */
  datatype DailyGoal = DailyGoal(id: Id, userId: UserId, calorieGoal: real, proteinGoal: real, date: int)

  /** A consumption as the queries return it, with `include: { food: true }`. */
  datatype Row = Row(consumption: Consumption, food: Food)

  /** One element of a history response: a day and what was eaten on it. */
  datatype HistoryEntry = HistoryEntry(date: int, calories: real, protein: real)

  /** One day of the progress tracker: what was eaten and the goal it is measured against. */
  datatype DayData = DayData(date: int, caloriesConsumed: real, proteinConsumed: real, calorieGoal: real, proteinGoal: real)

  /** Range statistics: averages, percentages of the goal totals, totals and the day count. */
  datatype StatsData = StatsData(
    calories: real, protein: real,
    caloriePercent: JsNumber, proteinPercent: JsNumber,
    totalCalories: real, totalProtein: real,
    avgCalorieGoal: real, avgProteinGoal: real,
    totalCalorieGoal: real, totalProteinGoal: real,
    daysCount: nat)

  datatype DateRange = CurrentWeek | Week | Month | Custom

  /** The figures of one day that the day detail shows. */
  datatype DayStats = DayStats(caloriesConsumed: real, proteinConsumed: real, calorieGoal: real, proteinGoal: real)

  /** The goal a tracker applies to every day of its range. */
  datatype Goal = Goal(calorieGoal: real, proteinGoal: real)

  /** The two nutrients, for statements that hold of both alike. */
  datatype Nutrient = Calories | Protein

  /** The outcome of a `fetch` as a component sees it: failed (not ok, or thrown), or the parsed body. */
  datatype Fetch<T> = Failed | Fetched(body: T)

  /** What a route handler answers. */
  datatype Response<T> = Ok(body: T) | Created(body: T) | BadRequest | Unauthorized | ServerError

  /** What one consumption contributes: the food's per-unit value times the quantity. */
  function Amount(r: Row, n: Nutrient): real
  {
    match n
    case Calories => r.food.caloriesPerUnit * r.consumption.quantity
    case Protein => r.food.proteinPerUnit * r.consumption.quantity
  }

  function EntryAmount(e: HistoryEntry, n: Nutrient): real
  {
    match n
    case Calories => e.calories
    case Protein => e.protein
  }

  /** The first food with the given id. */
  function FindFood(foods: seq<Food>, id: Id): (r: Option<Food>)
    ensures r.Some? ==> r.value in foods && r.value.id == id
    ensures r.None? ==> forall i :: 0 <= i < |foods| ==> foods[i].id != id
  {
    if foods == [] then None
    else if foods[0].id == id then Some(foods[0])
    else FindFood(foods[1..], id)
  }

  /**
   * `include: { food: true }`: each consumption with the food it refers to, as
   * the food table holds it now. A consumption whose food is missing is dropped
   * (the store's foreign key keeps that from happening).
   */
  /** The consumption of each row, in order. */
  function ConsumptionsOf(rows: seq<Row>): (cs: seq<Consumption>)
    ensures |cs| == |rows| && forall i :: 0 <= i < |rows| ==> cs[i] == rows[i].consumption
  {
    seq(|rows|, i requires 0 <= i < |rows| => rows[i].consumption)
  }

  function Join(cs: seq<Consumption>, foods: seq<Food>): (rows: seq<Row>)
    ensures |rows| <= |cs|
    ensures forall i :: 0 <= i < |rows| ==>
      rows[i].consumption in cs && FindFood(foods, rows[i].consumption.foodId) == Some(rows[i].food)
    ensures (forall c :: c in cs ==> FindFood(foods, c.foodId).Some?) ==>
      |rows| == |cs| && forall i :: 0 <= i < |cs| ==> rows[i].consumption == cs[i]
  {
    if cs == [] then []
    else
      var rest := Join(cs[1..], foods);
      match FindFood(foods, cs[0].foodId)
      case Some(f) => [Row(cs[0], f)] + rest
      case None => rest
  }

  /** A consumption whose food exists is among the joined rows. */
  lemma {:induction false} JoinKeeps(cs: seq<Consumption>, foods: seq<Food>, c: Consumption)
    requires c in cs && FindFood(foods, c.foodId).Some?
    ensures exists i :: 0 <= i < |Join(cs, foods)| && Join(cs, foods)[i].consumption == c
  {
    var rest := Join(cs[1..], foods);
    var found := FindFood(foods, cs[0].foodId);
    var rows := Join(cs, foods);
    assert rows == if found.Some? then [Row(cs[0], found.value)] + rest else rest;
    if cs[0] == c {
      assert rows[0].consumption == c;
    } else {
      assert c in cs[1..];
      JoinKeeps(cs[1..], foods, c);
      var i :| 0 <= i < |rest| && rest[i].consumption == c;
      if found.Some? {
        assert rows[i + 1].consumption == c;
      } else {
        assert rows[i].consumption == c;
      }
    }
  }
}

/** Filters over tables, as the `where` clauses of the queries apply them. */
module Tables {

  /** The elements of `s` that satisfy `p`, in their order. */
  function Filter<T>(s: seq<T>, p: T -> bool): (r: seq<T>)
    ensures |r| <= |s|
    ensures forall i :: 0 <= i < |r| ==> r[i] in s && p(r[i])
    ensures forall i :: 0 <= i < |s| && p(s[i]) ==> s[i] in r
  {
    if s == [] then []
    else if p(s[0]) then [s[0]] + Filter(s[1..], p)
    else Filter(s[1..], p)
  }

  /** Each element kept is kept as often as it occurs, and each one dropped not at all. */
  lemma {:induction false} FilterCounts<T>(s: seq<T>, p: T -> bool)
    ensures forall x :: multiset(Filter(s, p))[x] == if p(x) then multiset(s)[x] else 0
  {
    if s != [] {
      FilterCounts(s[1..], p);
      assert s == [s[0]] + s[1..];
    }
  }

  /** A filter that keeps everything returns its input. */
  lemma {:induction false} FilterAll<T>(s: seq<T>, p: T -> bool)
    requires forall i :: 0 <= i < |s| ==> p(s[i])
    ensures Filter(s, p) == s
  {
    if s != [] {
      FilterAll(s[1..], p);
      assert s == [s[0]] + s[1..];
    }
  }

  /** Filtering a concatenation filters each part. */
  lemma {:induction false} FilterAppend<T>(a: seq<T>, b: seq<T>, p: T -> bool)
    ensures Filter(a + b, p) == Filter(a, p) + Filter(b, p)
  {
    if a != [] {
      FilterAppend(a[1..], b, p);
      assert (a + b)[1..] == a[1..] + b;
    } else {
      assert a + b == b;
    }
  }

  /** A filter that keeps nothing returns nothing. */
  lemma {:induction false} FilterNone<T>(s: seq<T>, p: T -> bool)
    requires forall i :: 0 <= i < |s| ==> !p(s[i])
    ensures Filter(s, p) == []
  {
    if s != [] {
      FilterNone(s[1..], p);
    }
  }
}
