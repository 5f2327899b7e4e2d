/**
 * `GET /history`, the older history route: the session user's consumptions
 * from seven days before now onwards, summed per UTC calendar day, in order
 * of first appearance.
 */
module LegacyHistory {
  import opened Wrappers
  import opened Calendar
  import opened Records
  import opened Tables
  import opened Bucketing
  import opened Store

  /** `d.setDate(d.getDate() - 7)`: the same clock time seven days before. */
  function SevenDaysBefore(now: int): int
  {
    now - 7 * MsPerDay
  }

  /** The `findMany`: the user's consumptions dated at or after the cutoff, with no upper bound. */
  function RecentRows(cs: seq<Consumption>, foods: seq<Food>, user: UserId, cutoff: int): seq<Row>
  {
    Join(Filter(cs, (c: Consumption) => c.userId == user && cutoff <= c.date), foods)
  }

  /** `date.toISOString().split('T')[0]`: the UTC day of the consumption. */
  function UtcKey(r: Row): int
  {
    UtcDay(r.consumption.date)
  }

  function LegacyResponse(cs: seq<Consumption>, foods: seq<Food>, session: Option<UserId>, now: int)
    : (r: Response<seq<HistoryEntry>>)
    ensures r == Unauthorized <==> session.None?
    ensures r.Ok? <==> session.Some?
  {
    match session
    case None => Unauthorized
    case Some(user) => Ok(Buckets(RecentRows(cs, foods, user, SevenDaysBefore(now)), UtcKey))
  }

  /** The handler: the cutoff is moved back in place, then the rows are folded per day. */
  method Get(db: Database, session: Option<UserId>, now: int) returns (r: Response<seq<HistoryEntry>>)
    ensures r == LegacyResponse(db.consumptions, db.foods, session, now)
  {
    if session.None? {
      return Unauthorized;
    }
    var cutoff := now;
    cutoff := cutoff - 7 * MsPerDay;
    var rows := RecentRows(db.consumptions, db.foods, session.value, cutoff);
    var entries := Aggregate(rows, UtcKey);
    r := Ok(entries);
  }

  /**
   * Exactly the user's consumptions from the cutoff on are summed, however
   * far in the future they are dated.
   */
  lemma RecentRowsAreTheUsers(cs: seq<Consumption>, foods: seq<Food>, user: UserId, now: int)
    ensures var rows := RecentRows(cs, foods, user, SevenDaysBefore(now));
      (forall i :: 0 <= i < |rows| ==>
        rows[i].consumption in cs && rows[i].consumption.userId == user && now - 7 * MsPerDay <= rows[i].consumption.date)
      && (forall c :: c in cs && c.userId == user && now - 7 * MsPerDay <= c.date && FindFood(foods, c.foodId).Some? ==>
        exists i :: 0 <= i < |rows| && rows[i].consumption == c)
  {
    var p := (c: Consumption) => c.userId == user && SevenDaysBefore(now) <= c.date;
    var f := Filter(cs, p);
    var rows := RecentRows(cs, foods, user, SevenDaysBefore(now));
    forall c | c in cs && c.userId == user && now - 7 * MsPerDay <= c.date && FindFood(foods, c.foodId).Some?
      ensures exists i :: 0 <= i < |rows| && rows[i].consumption == c
    {
      var k :| 0 <= k < |cs| && cs[k] == c;
      assert c in f;
      JoinKeeps(f, foods, c);
    }
  }
}
