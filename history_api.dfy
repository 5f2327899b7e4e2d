/**
 * `GET /api/history`: the session user's consumptions in a window of days,
 * summed per local calendar day and ordered by date.
 */
module HistoryApi {
  import opened Wrappers
  import opened Parsing
  import opened Calendar
  import opened Records
  import opened Tables
  import opened Sorting
  import opened Bucketing
  import opened Store

  const DefaultDays: nat := 30

  /** The `days` parameter: absent, empty, NaN or not positive means 30. */
  function DaysFromParam(p: Option<string>): (days: nat)
    ensures days > 0
    ensures p.Some? && ParseInt(p.value).Some? && ParseInt(p.value).value > 0 ==> days == ParseInt(p.value).value
    ensures !(p.Some? && ParseInt(p.value).Some? && ParseInt(p.value).value > 0) ==> days == DefaultDays
  {
    match p
    case None => DefaultDays
    case Some(s) =>
      if s == [] then (ParseNeedsADigit(s); DefaultDays)
      else
        match ParseInt(s)
        case None => DefaultDays
        case Some(v) => if v <= 0 then DefaultDays else v
  }

  /** A positive count written out in decimal is the count of days used. */
  lemma DaysOfNumeral(n: nat)
    requires n > 0
    ensures DaysFromParam(Some(NatToString(n))) == n
  {
    ParseIntNatToString(n);
  }

  /** What `new Date(param)` yields: an instant, or Invalid Date. A `yyyy-MM-dd` string yields UTC midnight of that day. */
  datatype DateValue = Instant(t: int) | InvalidDate

  function DayParam(d: int): DateValue { Instant(d * MsPerDay) }

  /** `startOfDay` and `endOfDay` of a date; both keep Invalid Date invalid. */
  function StartOfDayOf(v: DateValue, tz: int): DateValue
  {
    match v
    case Instant(t) => Instant(StartOfLocalDay(LocalDay(t, tz), tz))
    case InvalidDate => InvalidDate
  }

  function EndOfDayOf(v: DateValue, tz: int): DateValue
  {
    match v
    case Instant(t) => Instant(EndOfLocalDay(LocalDay(t, tz), tz))
    case InvalidDate => InvalidDate
  }

  /** The query parameters; an absent or empty date parameter is `None`. */
  datatype Query = Query(days: Option<string>, startDate: Option<DateValue>, endDate: Option<DateValue>)

  /** The window bounds; the start always ends up valid, the end need not. */
  datatype Window = Window(start: int, end: DateValue)

  /** `startOfDay(subDays(now, days - 1))`. */
  function DefaultStart(days: nat, now: int, tz: int): int
  {
    StartOfLocalDay(LocalDay(now - (days - 1) * MsPerDay, tz), tz)
  }

  /**
   * The window the route queries: the start is always the first millisecond
   * of a local day, the end the last millisecond of one, and the end is
   * Invalid Date exactly when both dates are given and the end date is invalid.
   */
  function WindowOf(q: Query, now: int, tz: int): (w: Window)
    ensures w.start == StartOfLocalDay(LocalDay(w.start, tz), tz)
    ensures w.end.Instant? ==> w.end.t == EndOfLocalDay(LocalDay(w.end.t, tz), tz)
    ensures w.end.InvalidDate? <==> q.startDate.Some? && q.endDate.Some? && q.endDate.value.InvalidDate?
  {
    DayBoundsAll(tz);
    var days := DaysFromParam(q.days);
    if q.startDate.Some? && q.endDate.Some? then
      var s := StartOfDayOf(q.startDate.value, tz);
      var e := EndOfDayOf(q.endDate.value, tz);
      if s.Instant? && e.Instant? then Window(s.t, e) else Window(DefaultStart(days, now, tz), e)
    else
      Window(DefaultStart(days, now, tz), Instant(EndOfLocalDay(LocalDay(now, tz), tz)))
  }

  /** The first and the last millisecond of a local day lie on that day. */
  lemma DayBoundsAll(tz: int)
    ensures forall d :: LocalDay(StartOfLocalDay(d, tz), tz) == d
    ensures forall d :: LocalDay(EndOfLocalDay(d, tz), tz) == d
  {
    forall d ensures LocalDay(StartOfLocalDay(d, tz), tz) == d && LocalDay(EndOfLocalDay(d, tz), tz) == d {
      InLocalDay(StartOfLocalDay(d, tz), d, tz);
      InLocalDay(EndOfLocalDay(d, tz), d, tz);
    }
  }

  /** The `findMany`: the user's consumptions dated within [start, end], each with its food. */
  function WindowRows(cs: seq<Consumption>, foods: seq<Food>, user: UserId, start: int, end: int): seq<Row>
  {
    Join(Filter(cs, (c: Consumption) => c.userId == user && start <= c.date <= end), foods)
  }

  /** `format(consumption.date, 'yyyy-MM-dd')`: the local day of the consumption. */
  function LocalKey(tz: int): Row -> int
  {
    (r: Row) => LocalDay(r.consumption.date, tz)
  }

  /** What the route answers. */
  function History(cs: seq<Consumption>, foods: seq<Food>, session: Option<UserId>, q: Query, now: int, tz: int)
    : (r: Response<seq<HistoryEntry>>)
    ensures r == Unauthorized <==> session.None?
    ensures r.Ok? || r == Unauthorized || r == ServerError
  {
    match session
    case None => Unauthorized
    case Some(user) =>
      var w := WindowOf(q, now, tz);
      match w.end
      case InvalidDate => ServerError
      case Instant(end) => Ok(SortedBuckets(WindowRows(cs, foods, user, w.start, end), tz))
  }

  /**
   * The handler, step by step: `days` is reassigned as it is parsed, the
   * window bounds as the date parameters are read, then the fold runs over
   * the rows the query returns and its values are sorted. An Invalid Date
   * reaching the query makes it throw, which the handler answers with 500.
   */
  method Get(db: Database, session: Option<UserId>, q: Query, now: int, tz: int) returns (r: Response<seq<HistoryEntry>>)
    ensures r == History(db.consumptions, db.foods, session, q, now, tz)
  {
    if session.None? {
      return Unauthorized;
    }
    var user := session.value;
    var days: nat := DefaultDays;
    if q.days.Some? && q.days.value != [] {
      var parsed := ParseInt(q.days.value);
      if parsed.None? || parsed.value <= 0 {
        days := DefaultDays;
      } else {
        days := parsed.value;
      }
    }
    var start: int;
    var end := Instant(EndOfLocalDay(LocalDay(now, tz), tz));
    if q.startDate.Some? && q.endDate.Some? {
      var s := StartOfDayOf(q.startDate.value, tz);
      end := EndOfDayOf(q.endDate.value, tz);
      if s.InvalidDate? || end.InvalidDate? {
        start := DefaultStart(days, now, tz);
      } else {
        start := s.t;
      }
    } else {
      start := DefaultStart(days, now, tz);
    }
    if end.InvalidDate? {
      return ServerError;
    }
    var rows := WindowRows(db.consumptions, db.foods, user, start, end.t);
    var entries := Aggregate(rows, LocalKey(tz));
    r := Ok(SortBy(entries, DateOf));
  }

  // --- the window ---

  /** Without both dates the window is exactly the `days` local days ending today. */
  lemma DefaultWindowDays(q: Query, now: int, tz: int, t: int)
    requires q.startDate.None? || q.endDate.None?
    ensures var w := WindowOf(q, now, tz);
      var today := LocalDay(now, tz);
      w.end.Instant? &&
      (w.start <= t <= w.end.t <==> today - (DaysFromParam(q.days) - 1) <= LocalDay(t, tz) <= today)
  {
    var days := DaysFromParam(q.days);
    var today := LocalDay(now, tz);
    LocalDayShift(now, days - 1, tz);
    InLocalDay(t, LocalDay(t, tz), tz);
    InDays(t, today - (days - 1), today, tz);
  }

  /**
   * When every consumption's food exists, each consumption of the user inside
   * the window is aggregated exactly as often as it is stored, and no other
   * consumption at all.
   */
  lemma WindowCountsOnce(cs: seq<Consumption>, foods: seq<Food>, user: UserId, start: int, end: int)
    requires forall c :: c in cs ==> FindFood(foods, c.foodId).Some?
    ensures var rows := WindowRows(cs, foods, user, start, end);
      forall c :: multiset(ConsumptionsOf(rows))[c] ==
        if c.userId == user && start <= c.date <= end then multiset(cs)[c] else 0
  {
    var p := (c: Consumption) => c.userId == user && start <= c.date <= end;
    var f := Filter(cs, p);
    var rows := Join(f, foods);
    assert ConsumptionsOf(rows) == f;
    FilterCounts(cs, p);
  }

  /** An instant lies between the start of local day `a` and the end of local day `b` exactly when its day is in [a, b]. */
  lemma InDays(t: int, a: int, b: int, tz: int)
    ensures StartOfLocalDay(a, tz) <= t <= EndOfLocalDay(b, tz) <==> a <= LocalDay(t, tz) <= b
  {
    var d := LocalDay(t, tz);
    InLocalDay(t, d, tz);
    assert d < a ==> (d + 1) * MsPerDay <= a * MsPerDay;
    assert b < d ==> (b + 1) * MsPerDay <= d * MsPerDay;
    assert a <= d ==> a * MsPerDay <= d * MsPerDay;
    assert d <= b ==> (d + 1) * MsPerDay <= (b + 1) * MsPerDay;
  }

  /** With two valid dates the window is the local days from the start date's to the end date's. */
  lemma CustomWindowDays(q: Query, now: int, tz: int, t: int)
    requires q.startDate.Some? && q.startDate.value.Instant?
    requires q.endDate.Some? && q.endDate.value.Instant?
    ensures var w := WindowOf(q, now, tz);
      w.end.Instant? &&
      (w.start <= t <= w.end.t <==>
        LocalDay(q.startDate.value.t, tz) <= LocalDay(t, tz) <= LocalDay(q.endDate.value.t, tz))
  {
    InDays(t, LocalDay(q.startDate.value.t, tz), LocalDay(q.endDate.value.t, tz), tz);
  }

  /** On a server running in UTC, `startDate=a&endDate=b` selects exactly the days a … b. */
  lemma CustomWindowUtc(a: int, b: int, days: Option<string>, now: int, t: int)
    ensures var w := WindowOf(Query(days, Some(DayParam(a)), Some(DayParam(b))), now, 0);
      w.end.Instant? && (w.start <= t <= w.end.t <==> a <= UtcDay(t) <= b)
  {
    assert LocalDay(a * MsPerDay, 0) == a;
    assert LocalDay(b * MsPerDay, 0) == b;
    CustomWindowDays(Query(days, Some(DayParam(a)), Some(DayParam(b))), now, 0, t);
  }

  /** An invalid start date falls back to the default start; the end keeps the end date's day. */
  lemma InvalidStartKeepsEnd(q: Query, now: int, tz: int, t: int)
    requires q.startDate == Some(InvalidDate)
    requires q.endDate.Some? && q.endDate.value.Instant?
    ensures var w := WindowOf(q, now, tz);
      var today := LocalDay(now, tz);
      w.end.Instant? &&
      (w.start <= t <= w.end.t <==>
        today - (DaysFromParam(q.days) - 1) <= LocalDay(t, tz) <= LocalDay(q.endDate.value.t, tz))
  {
    var days := DaysFromParam(q.days);
    LocalDayShift(now, days - 1, tz);
    InDays(t, LocalDay(now, tz) - (days - 1), LocalDay(q.endDate.value.t, tz), tz);
  }

  /** An invalid end date, with a start date given, is not caught: the query fails and the route answers 500. */
  lemma InvalidEndFails(cs: seq<Consumption>, foods: seq<Food>, user: UserId, q: Query, now: int, tz: int)
    requires q.startDate.Some? && q.endDate == Some(InvalidDate)
    ensures History(cs, foods, Some(user), q, now, tz) == ServerError
  {
  }

  // --- the rows and the entries ---

  /** Exactly the session user's consumptions dated inside the window are summed. */
  lemma WindowRowsAreTheUsers(cs: seq<Consumption>, foods: seq<Food>, user: UserId, start: int, end: int)
    ensures var rows := WindowRows(cs, foods, user, start, end);
      (forall i :: 0 <= i < |rows| ==>
        rows[i].consumption in cs && rows[i].consumption.userId == user && start <= rows[i].consumption.date <= end)
      && (forall c :: c in cs && c.userId == user && start <= c.date <= end && FindFood(foods, c.foodId).Some? ==>
        exists i :: 0 <= i < |rows| && rows[i].consumption == c)
  {
    var p := (c: Consumption) => c.userId == user && start <= c.date <= end;
    var f := Filter(cs, p);
    var rows := Join(f, foods);
    forall c | c in cs && c.userId == user && start <= c.date <= end && FindFood(foods, c.foodId).Some?
      ensures exists i :: 0 <= i < |rows| && rows[i].consumption == c
    {
      var k :| 0 <= k < |cs| && cs[k] == c;
      assert c in f;
      JoinKeeps(f, foods, c);
    }
  }

  /** The entries of a set of rows, as the route orders them. */
  function SortedBuckets(rows: seq<Row>, tz: int): seq<HistoryEntry>
  {
    SortBy(Buckets(rows, LocalKey(tz)), DateOf)
  }

  /** The entries are in strictly ascending date order. */
  lemma HistoryAscending(rows: seq<Row>, tz: int)
    ensures var es := SortedBuckets(rows, tz);
      forall i, j :: 0 <= i < j < |es| ==> es[i].date < es[j].date
  {
    var bs := Buckets(rows, LocalKey(tz));
    var es := SortBy(bs, DateOf);
    BucketsPartitionDays(rows, LocalKey(tz));
    PermutationKeepsDistinctDates(bs, es);
    SortedDistinctAscend(es);
  }

  /** Entries in date order whose dates are distinct are in strictly ascending date order. */
  lemma SortedDistinctAscend(es: seq<HistoryEntry>)
    requires SortedBy(es, DateOf)
    requires forall i, j :: 0 <= i < j < |es| ==> es[i].date != es[j].date
    ensures forall i, j :: 0 <= i < j < |es| ==> es[i].date < es[j].date
  {
    forall i, j | 0 <= i < j < |es| ensures es[i].date < es[j].date {
      assert DateOf(es[i]) <= DateOf(es[j]);
    }
  }

  /** Each entry is a day on which some row falls, and holds the sums of that day's rows. */
  lemma HistoryEntryIsADay(rows: seq<Row>, tz: int, k: int)
    requires 0 <= k < |SortedBuckets(rows, tz)|
    ensures var e := SortedBuckets(rows, tz)[k];
      && (exists i :: 0 <= i < |rows| && LocalDay(rows[i].consumption.date, tz) == e.date)
      && e.calories == AmountOn(rows, LocalKey(tz), e.date, Calories)
      && e.protein == AmountOn(rows, LocalKey(tz), e.date, Protein)
  {
    var key := LocalKey(tz);
    var ks := KeysInOrder(rows, key);
    var bs := Buckets(rows, key);
    var es := SortBy(bs, DateOf);
    assert es[k] in multiset(bs);
    var j :| 0 <= j < |bs| && bs[j] == es[k];
    var i :| 0 <= i < |rows| && key(rows[i]) == ks[j];
  }

  /** Every row's day has an entry: no row is lost. */
  lemma HistoryRowHasEntry(rows: seq<Row>, tz: int, i: int)
    requires 0 <= i < |rows|
    ensures exists k :: 0 <= k < |SortedBuckets(rows, tz)| && SortedBuckets(rows, tz)[k].date == LocalDay(rows[i].consumption.date, tz)
  {
    var key := LocalKey(tz);
    var ks := KeysInOrder(rows, key);
    var bs := Buckets(rows, key);
    var es := SortBy(bs, DateOf);
    var j :| 0 <= j < |ks| && ks[j] == key(rows[i]);
    assert bs[j] in multiset(es);
    var k :| 0 <= k < |es| && es[k] == bs[j];
    assert SortedBuckets(rows, tz)[k].date == LocalDay(rows[i].consumption.date, tz);
  }

  /** Conservation: the entries together hold what the rows hold. */
  lemma HistoryConserves(rows: seq<Row>, tz: int)
    ensures SumEntries(SortedBuckets(rows, tz), Calories) == Total(rows, Calories)
    ensures SumEntries(SortedBuckets(rows, tz), Protein) == Total(rows, Protein)
  {
    var bs := Buckets(rows, LocalKey(tz));
    BucketsConserve(rows, LocalKey(tz), Calories);
    BucketsConserve(rows, LocalKey(tz), Protein);
    SumEntriesSorted(bs, Calories);
    SumEntriesSorted(bs, Protein);
  }

  /** Two sequences with the same multiset hold the same entries. */
  lemma SameEntries(bs: seq<HistoryEntry>, es: seq<HistoryEntry>)
    requires multiset(es) == multiset(bs)
    ensures forall k :: 0 <= k < |es| ==> exists j :: 0 <= j < |bs| && bs[j] == es[k]
    ensures forall j :: 0 <= j < |bs| ==> exists k :: 0 <= k < |es| && es[k] == bs[j]
  {
    forall k | 0 <= k < |es| ensures exists j :: 0 <= j < |bs| && bs[j] == es[k] {
      assert es[k] in multiset(bs);
    }
    forall j | 0 <= j < |bs| ensures exists k :: 0 <= k < |es| && es[k] == bs[j] {
      assert bs[j] in multiset(es);
    }
  }

  /** Rearranging entries whose dates are distinct keeps them distinct. */
  lemma PermutationKeepsDistinctDates(bs: seq<HistoryEntry>, es: seq<HistoryEntry>)
    requires multiset(es) == multiset(bs)
    requires forall i, j :: 0 <= i < j < |bs| ==> bs[i].date != bs[j].date
    ensures forall i, j :: 0 <= i < j < |es| ==> es[i].date != es[j].date
  {
    forall i, j | 0 <= i < j < |es| ensures es[i].date != es[j].date {
      if es[i].date == es[j].date {
        SameEntries(bs, es);
        var a :| 0 <= a < |bs| && bs[a] == es[i];
        var b :| 0 <= b < |bs| && bs[b] == es[j];
        assert a == b;
        CountOne(bs, a);
        TwiceCounted(es, i, j);
        assert false;
      }
    }
  }

  /** Equal elements at two positions count twice. */
  lemma TwiceCounted(es: seq<HistoryEntry>, i: int, j: int)
    requires 0 <= i < j < |es| && es[i] == es[j]
    ensures multiset(es)[es[i]] >= 2
  {
    assert es == es[..i] + [es[i]] + es[i + 1..j] + [es[j]] + es[j + 1..];
  }

  /** An entry whose date occurs once among the buckets occurs once in them. */
  lemma CountOne(bs: seq<HistoryEntry>, a: int)
    requires 0 <= a < |bs|
    requires forall i, j :: 0 <= i < j < |bs| ==> bs[i].date != bs[j].date
    ensures multiset(bs)[bs[a]] == 1
  {
    assert bs == bs[..a] + [bs[a]] + bs[a + 1..];
    assert forall i :: 0 <= i < a ==> bs[..a][i] != bs[a];
    var tail := bs[a + 1..];
    assert forall i :: 0 <= i < |tail| ==> tail[i] == bs[a + 1 + i];
    assert bs[a] !in bs[..a];
    assert bs[a] !in tail;
  }
}
