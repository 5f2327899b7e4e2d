/**
 * `/api/consumption`: record that the session user ate a quantity of a food
 * (POST), list today's consumptions newest first (GET), and delete one of
 * the user's own consumptions by id (DELETE).
 */
module ConsumptionApi {
  import opened Wrappers
  import opened Parsing
  import opened Calendar
  import opened Records
  import opened Tables
  import opened Sorting
  import opened Store

  /**
   * POST: a new consumption of the session user, dated now, joined with its
   * food. Neither the quantity nor the food's owner is checked; a food id
   * that names no food violates the foreign key and the request fails.
   */
  method Post(db: Database, session: Option<UserId>, foodId: Id, quantity: real, now: int) returns (r: Response<Row>)
    requires db.Valid()
    modifies db
    ensures db.Valid()
    ensures session.None? ==> r == Unauthorized && unchanged(db)
    ensures session.Some? && FindFood(old(db.foods), foodId).None? ==> r == ServerError && unchanged(db)
    ensures session.Some? && FindFood(old(db.foods), foodId).Some? ==>
      var c := Consumption(old(db.nextId), session.value, foodId, quantity, now);
      && r == Ok(Row(c, FindFood(old(db.foods), foodId).value))
      && db.consumptions == old(db.consumptions) + [c]
      && db.nextId == old(db.nextId) + 1
      && (forall x :: x in old(db.consumptions) ==> x.id != c.id)
    ensures db.foods == old(db.foods) && db.goals == old(db.goals) && db.users == old(db.users)
    ensures db.sessions == old(db.sessions) && db.accounts == old(db.accounts)
  {
    if session.None? {
      return Unauthorized;
    }
    var food := FindFood(db.foods, foodId);
    if food.None? {
      return ServerError;
    }
    var c := Consumption(db.nextId, session.value, foodId, quantity, now);
    db.consumptions := db.consumptions + [c];
    db.nextId := db.nextId + 1;
    r := Ok(Row(c, food.value));
  }

  /** `startOfDay.setHours(0, 0, 0, 0)`: local midnight of the day of `now`. */
  function StartOfToday(now: int, tz: int): (t: int)
    ensures t <= now && LocalDay(t, tz) == LocalDay(now, tz)
    ensures forall u :: t <= u <= now ==> LocalDay(u, tz) == LocalDay(now, tz)
    ensures forall u :: LocalDay(u, tz) == LocalDay(now, tz) ==> t <= u
  {
    InLocalDay(now, LocalDay(now, tz), tz);
    InLocalDay(StartOfLocalDay(LocalDay(now, tz), tz), LocalDay(now, tz), tz);
    var t := StartOfLocalDay(LocalDay(now, tz), tz);
    assert forall u :: t <= u <= now ==> LocalDay(u, tz) == LocalDay(now, tz) by {
      forall u | t <= u <= now ensures LocalDay(u, tz) == LocalDay(now, tz) {
        InLocalDay(u, LocalDay(now, tz), tz);
      }
    }
    assert forall u :: LocalDay(u, tz) == LocalDay(now, tz) ==> t <= u by {
      forall u | LocalDay(u, tz) == LocalDay(now, tz) ensures t <= u {
        InLocalDay(u, LocalDay(now, tz), tz);
      }
    }
    t
  }

  /** The `where` of GET: the user's consumptions from local midnight on. */
  function Today(user: UserId, start: int): Consumption -> bool
  {
    (c: Consumption) => c.userId == user && c.date >= start
  }

  /** The sort key of `orderBy: { date: 'desc' }`. */
  function Newest(r: Row): int
  {
    -r.consumption.date
  }

  /** GET's answer: today's rows of the user, newest first. */
  function TodaysRows(cs: seq<Consumption>, foods: seq<Food>, user: UserId, start: int): (rows: seq<Row>)
    ensures multiset(rows) == multiset(Join(Filter(cs, Today(user, start)), foods))
    ensures forall i, j :: 0 <= i < j < |rows| ==> rows[i].consumption.date >= rows[j].consumption.date
    ensures forall i :: 0 <= i < |rows| ==> rows[i].consumption in cs && rows[i].consumption.userId == user && rows[i].consumption.date >= start
  {
    var joined := Join(Filter(cs, Today(user, start)), foods);
    var rows := SortBy(joined, Newest);
    forall i | 0 <= i < |rows|
      ensures rows[i].consumption in cs && rows[i].consumption.userId == user && rows[i].consumption.date >= start
    {
      assert rows[i] in multiset(joined);
    }
    assert forall i, j :: 0 <= i < j < |rows| ==> Newest(rows[i]) <= Newest(rows[j]);
    rows
  }

  /** Every consumption of the user from today on whose food exists is listed. */
  lemma TodaysRowsComplete(cs: seq<Consumption>, foods: seq<Food>, user: UserId, start: int, c: Consumption)
    requires c in cs && c.userId == user && c.date >= start && FindFood(foods, c.foodId).Some?
    ensures exists i :: 0 <= i < |TodaysRows(cs, foods, user, start)| && TodaysRows(cs, foods, user, start)[i].consumption == c
  {
    var f := Filter(cs, Today(user, start));
    var i :| 0 <= i < |cs| && cs[i] == c;
    assert Today(user, start)(cs[i]);
    JoinKeeps(f, foods, c);
    var joined := Join(f, foods);
    var k :| 0 <= k < |joined| && joined[k].consumption == c;
    var rows := TodaysRows(cs, foods, user, start);
    assert joined[k] in multiset(rows);
  }

  /** GET: today's consumptions of the session user, newest first. */
  method Get(db: Database, session: Option<UserId>, now: int, tz: int) returns (r: Response<seq<Row>>)
    ensures session.None? ==> r == Unauthorized
    ensures session.Some? ==> r == Ok(TodaysRows(db.consumptions, db.foods, session.value, StartOfToday(now, tz)))
  {
    if session.None? {
      return Unauthorized;
    }
    var startOfDay := now;
    startOfDay := StartOfLocalDay(LocalDay(startOfDay, tz), tz);
    r := Ok(TodaysRows(db.consumptions, db.foods, session.value, startOfDay));
  }

  /** `where: { id, userId }`: the record with that id, owned by the user. */
  predicate Matches(c: Consumption, id: string, user: UserId)
  {
    NatToString(c.id) == id && c.userId == user
  }

  /** The position of the record DELETE removes, if there is one. */
  function MatchIndex(cs: seq<Consumption>, id: string, user: UserId): (r: Option<nat>)
    ensures r.Some? ==> r.value < |cs| && Matches(cs[r.value], id, user)
    ensures r.None? ==> forall j :: 0 <= j < |cs| ==> !Matches(cs[j], id, user)
  {
    if cs == [] then None
    else if Matches(cs[0], id, user) then Some(0)
    else
      match MatchIndex(cs[1..], id, user)
      case None => None
      case Some(k) => Some(k + 1)
  }

  /**
   * DELETE: 400 without an id; 500 when no record has that id and belongs to
   * the user (the delete finds nothing and throws); otherwise that record is
   * removed and nothing else changes.
   */
  method Delete(db: Database, session: Option<UserId>, id: Option<string>) returns (r: Response<bool>)
    requires db.Valid()
    modifies db
    ensures db.Valid()
    ensures session.None? ==> r == Unauthorized && unchanged(db)
    ensures session.Some? && (id.None? || id.value == "") ==> r == BadRequest && unchanged(db)
    ensures session.Some? && id.Some? && id.value != "" ==>
      var m := MatchIndex(old(db.consumptions), id.value, session.value);
      && (m.None? ==> r == ServerError && unchanged(db))
      && (m.Some? ==> r == Ok(true) && db.consumptions == old(db.consumptions)[..m.value] + old(db.consumptions)[m.value + 1..])
    ensures db.foods == old(db.foods) && db.goals == old(db.goals) && db.users == old(db.users) && db.nextId == old(db.nextId)
    ensures db.sessions == old(db.sessions) && db.accounts == old(db.accounts)
  {
    if session.None? {
      return Unauthorized;
    }
    if id.None? || id.value == "" {
      return BadRequest;
    }
    var m := MatchIndex(db.consumptions, id.value, session.value);
    if m.None? {
      return ServerError;
    }
    var cs := db.consumptions;
    db.consumptions := cs[..m.value] + cs[m.value + 1..];
    assert forall i :: 0 <= i < |db.consumptions| ==> db.consumptions[i] in cs;
    r := Ok(true);
  }

  /** Two ids with the same decimal text are the same id. */
  lemma IdTextInjective(a: nat, b: nat)
    ensures NatToString(a) == NatToString(b) ==> a == b
  {
    ParseIntNatToString(a);
    ParseIntNatToString(b);
  }

  /**
   * Deleting keeps every record of every other user, and removes exactly one
   * record of the user, the one whose id was given.
   */
  lemma DeleteKeepsOthers(cs: seq<Consumption>, id: string, user: UserId)
    requires MatchIndex(cs, id, user).Some?
    ensures var k := MatchIndex(cs, id, user).value;
      var rest := cs[..k] + cs[k + 1..];
      && multiset(rest) + multiset{cs[k]} == multiset(cs)
      && cs[k].userId == user && NatToString(cs[k].id) == id
      && (forall c: Consumption :: c.userId != user ==> multiset(rest)[c] == multiset(cs)[c])
  {
    var k := MatchIndex(cs, id, user).value;
    assert cs == cs[..k] + [cs[k]] + cs[k + 1..];
  }
}
