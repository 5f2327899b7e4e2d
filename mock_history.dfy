/**
 * `GET /api/mock-history`: a synthetic history of `days` consecutive days
 * ending today, each with random but bounded calories and protein.
 */
module MockHistory {
  import opened Wrappers
  import opened JsNum
  import opened Calendar
  import opened Records

  const DefaultDays: int := 30

  /** Two results of `Math.random()`, one for the calories and one for the protein of an entry. */
  datatype Draw = Draw(calories: real, protein: real)

  predicate IsDraw(d: Draw)
  {
    0.0 <= d.calories < 1.0 && 0.0 <= d.protein < 1.0
  }

  /**
   * `Number(param || '30')`: `None` when the parameter is absent or empty,
   * `Some(None)` when it is not a number. The loop runs from `days - 1` down
   * to 0, so NaN and counts below 1 emit nothing.
   */
  function EntryCount(days: Option<Option<int>>): nat
  {
    match days
    case None => DefaultDays
    case Some(None) => 0
    case Some(Some(n)) => if n > 0 then n else 0
  }

  /** `Math.round(Math.random() * 1800 + 200)`: a whole number of calories from 200 to 2000. */
  function MockCalories(r: real): (c: int)
    requires 0.0 <= r < 1.0
    ensures 200 <= c <= 2000
  {
    Round(r * 1800.0 + 200.0)
  }

  /** `Math.round(Math.random() * 100 + 20)`: a whole number of grams of protein from 20 to 120. */
  function MockProtein(r: real): (p: int)
    requires 0.0 <= r < 1.0
    ensures 20 <= p <= 120
  {
    Round(r * 100.0 + 20.0)
  }

  /**
   * The handler: a counting-down loop that pushes one entry per day,
   * oldest first. Entry `k` is built from the `k`-th draw.
   */
  method Get(days: Option<Option<int>>, draws: seq<Draw>, now: int, tz: int) returns (entries: seq<HistoryEntry>)
    requires |draws| >= EntryCount(days)
    requires forall k :: 0 <= k < |draws| ==> IsDraw(draws[k])
    ensures |entries| == EntryCount(days)
    ensures forall k :: 0 <= k < |entries| ==> entries[k].date == LocalDay(now, tz) - (|entries| - 1 - k)
    ensures forall j, k :: 0 <= j < k < |entries| ==> entries[j].date < entries[k].date
    ensures |entries| > 0 ==> entries[|entries| - 1].date == LocalDay(now, tz)
    ensures forall k :: 0 <= k < |entries| ==>
      && IsDraw(draws[k])
      && entries[k].calories == MockCalories(draws[k].calories) as real
      && entries[k].protein == MockProtein(draws[k].protein) as real
      && 200.0 <= entries[k].calories <= 2000.0
      && 20.0 <= entries[k].protein <= 120.0
  {
    entries := [];
    if days.Some? && days.value.None? {
      return;
    }
    var d := if days.None? then DefaultDays else days.value.value;
    var today := LocalDay(now, tz);
    var i := d - 1;
    while i >= 0
      invariant i <= d - 1 && (i >= -1 || i == d - 1)
      invariant |entries| == d - 1 - i <= EntryCount(days)
      invariant forall k :: 0 <= k < |entries| ==> entries[k].date == today - (d - 1 - k)
      invariant forall k :: 0 <= k < |entries| ==>
        && entries[k].calories == MockCalories(draws[k].calories) as real
        && entries[k].protein == MockProtein(draws[k].protein) as real
      decreases i + 1
    {
      var draw := draws[|entries|];
      LocalDayShift(now, i, tz);
      var date := LocalDay(now - i * MsPerDay, tz);
      entries := entries + [HistoryEntry(date, MockCalories(draw.calories) as real, MockProtein(draw.protein) as real)];
      i := i - 1;
    }
  }
}
