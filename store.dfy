/**
 * The database behind the API routes, as the routes see it: the food,
 * consumption and daily-goal tables, and the next-auth tables (users, their
 * sessions and accounts) that deleting an account clears. Each table is a
 * sequence of rows, updated in place by the route handlers.
 */
module Store {
  import opened Records

  /** A next-auth session or account row; only its owner matters to the routes. */
  datatype AuthRecord = AuthRecord(id: Id, userId: UserId)

  class Database {
    var foods: seq<Food>
    var consumptions: seq<Consumption>
    var goals: seq<DailyGoal>
    var sessions: seq<AuthRecord>
    var accounts: seq<AuthRecord>
    var users: seq<UserId>
    /** The id the store hands out next; every id in use is below it. */
    var nextId: Id

    ghost predicate Valid()
      reads this
    {
      && (forall f :: f in foods ==> f.id < nextId)
      && (forall c :: c in consumptions ==> c.id < nextId)
      && (forall g :: g in goals ==> g.id < nextId)
    }

    constructor (users: seq<UserId>)
      ensures Valid()
      ensures this.users == users
      ensures foods == [] && consumptions == [] && goals == [] && sessions == [] && accounts == []
    {
      foods := [];
      consumptions := [];
      goals := [];
      sessions := [];
      accounts := [];
      this.users := users;
      nextId := 0;
    }
  }
}
