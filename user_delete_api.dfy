/**
 * `DELETE /api/user/delete`: remove the session user's consumptions, foods,
 * goals, sessions and accounts, in that order, then the user record itself.
 * The steps are separate statements, not a transaction: a step that throws
 * ends the handler with a 500 and leaves the earlier steps done.
 */
module UserDeleteApi {
  import opened Wrappers
  import opened Records
  import opened Tables
  import opened Store

  /** The number of steps; `failAt` in 1..Steps names the step that throws. */
  const Steps: nat := 6

  function NotOwnedConsumption(user: UserId): Consumption -> bool { (c: Consumption) => c.userId != user }
  function NotOwnedFood(user: UserId): Food -> bool { (f: Food) => f.userId != user }
  function NotOwnedGoal(user: UserId): DailyGoal -> bool { (g: DailyGoal) => g.userId != user }
  function NotOwnedRecord(user: UserId): AuthRecord -> bool { (a: AuthRecord) => a.userId != user }
  function NotUser(user: UserId): UserId -> bool { (u: UserId) => u != user }

  /** `deleteMany` on a step that ran: the table without the user's rows. */
  function AfterStep<T>(rows: seq<T>, keep: T -> bool, step: nat, failAt: nat): seq<T>
  {
    if failAt == 0 || step < failAt then Filter(rows, keep) else rows
  }

  /**
   * The handler. `failAt` stands for the database errors the steps may throw:
   * 0 when none does, otherwise the number of the first step that throws.
   * `user.delete` also throws when there is no user record to delete.
   */
  method Delete(db: Database, session: Option<UserId>, failAt: nat) returns (r: Response<bool>)
    requires db.Valid()
    modifies db
    ensures db.Valid()
    ensures session.None? ==> r == Unauthorized && unchanged(db)
    ensures session.Some? ==>
      var u := session.value;
      && db.consumptions == AfterStep(old(db.consumptions), NotOwnedConsumption(u), 1, failAt)
      && db.foods == AfterStep(old(db.foods), NotOwnedFood(u), 2, failAt)
      && db.goals == AfterStep(old(db.goals), NotOwnedGoal(u), 3, failAt)
      && db.sessions == AfterStep(old(db.sessions), NotOwnedRecord(u), 4, failAt)
      && db.accounts == AfterStep(old(db.accounts), NotOwnedRecord(u), 5, failAt)
      && db.users == (if (failAt == 0 || failAt > 6) && u in old(db.users) then Filter(old(db.users), NotUser(u)) else old(db.users))
      && (r == Ok(true) <==> (failAt == 0 || failAt > 6) && u in old(db.users))
      && (r != Ok(true) ==> r == ServerError)
    ensures db.nextId == old(db.nextId)
  {
    if session.None? {
      return Unauthorized;
    }
    var u := session.value;
    var ok := DeleteOwnedRows(db, u, failAt);
    if !ok || failAt == 6 || u !in db.users {
      return ServerError;
    }
    db.users := Filter(db.users, NotUser(u));
    r := Ok(true);
  }

  /**
   * The five `deleteMany` calls of the handler, in order: consumptions,
   * foods, goals, sessions, accounts. `false` when one of them throws; the
   * steps before it stay done.
   */
  method DeleteOwnedRows(db: Database, u: UserId, failAt: nat) returns (ok: bool)
    requires db.Valid()
    modifies db
    ensures db.Valid()
    ensures ok <==> failAt == 0 || failAt > 5
    ensures db.consumptions == AfterStep(old(db.consumptions), NotOwnedConsumption(u), 1, failAt)
    ensures db.foods == AfterStep(old(db.foods), NotOwnedFood(u), 2, failAt)
    ensures db.goals == AfterStep(old(db.goals), NotOwnedGoal(u), 3, failAt)
    ensures db.sessions == AfterStep(old(db.sessions), NotOwnedRecord(u), 4, failAt)
    ensures db.accounts == AfterStep(old(db.accounts), NotOwnedRecord(u), 5, failAt)
    ensures db.users == old(db.users) && db.nextId == old(db.nextId)
  {
    if failAt == 1 {
      return false;
    }
    db.consumptions := Filter(db.consumptions, NotOwnedConsumption(u));
    if failAt == 2 {
      return false;
    }
    db.foods := Filter(db.foods, NotOwnedFood(u));
    if failAt == 3 {
      return false;
    }
    db.goals := Filter(db.goals, NotOwnedGoal(u));
    if failAt == 4 {
      return false;
    }
    db.sessions := Filter(db.sessions, NotOwnedRecord(u));
    if failAt == 5 {
      return false;
    }
    db.accounts := Filter(db.accounts, NotOwnedRecord(u));
    ok := true;
  }

  /** Nothing of the user is left once the deletion succeeds. */
  predicate Erased(foods: seq<Food>, consumptions: seq<Consumption>, goals: seq<DailyGoal>,
                   sessions: seq<AuthRecord>, accounts: seq<AuthRecord>, users: seq<UserId>, u: UserId)
  {
    && (forall i :: 0 <= i < |consumptions| ==> consumptions[i].userId != u)
    && (forall i :: 0 <= i < |foods| ==> foods[i].userId != u)
    && (forall i :: 0 <= i < |goals| ==> goals[i].userId != u)
    && (forall i :: 0 <= i < |sessions| ==> sessions[i].userId != u)
    && (forall i :: 0 <= i < |accounts| ==> accounts[i].userId != u)
    && u !in users
  }

  /** The tables after a complete run hold nothing of the user. */
  lemma CompleteRunErases(db: Database, u: UserId)
    ensures var failAt := 0;
      Erased(AfterStep(db.foods, NotOwnedFood(u), 2, failAt), AfterStep(db.consumptions, NotOwnedConsumption(u), 1, failAt),
             AfterStep(db.goals, NotOwnedGoal(u), 3, failAt), AfterStep(db.sessions, NotOwnedRecord(u), 4, failAt),
             AfterStep(db.accounts, NotOwnedRecord(u), 5, failAt), Filter(db.users, NotUser(u)), u)
  {
  }

  /** Every row of another user survives, whatever step fails. */
  lemma OthersKept(db: Database, u: UserId, v: UserId, failAt: nat, c: Consumption, f: Food, g: DailyGoal)
    requires v != u
    ensures c in db.consumptions && c.userId == v ==> c in AfterStep(db.consumptions, NotOwnedConsumption(u), 1, failAt)
    ensures f in db.foods && f.userId == v ==> f in AfterStep(db.foods, NotOwnedFood(u), 2, failAt)
    ensures g in db.goals && g.userId == v ==> g in AfterStep(db.goals, NotOwnedGoal(u), 3, failAt)
  {
  }

  /**
   * The order of the steps: when a step fails, the tables of the steps before
   * it no longer hold the user's rows and those of the steps after it are as
   * they were.
   */
  lemma FailureLeavesPrefixDone(db: Database, u: UserId, failAt: nat)
    requires 1 <= failAt <= Steps
    ensures failAt > 1 ==> forall i :: 0 <= i < |AfterStep(db.consumptions, NotOwnedConsumption(u), 1, failAt)| ==>
      AfterStep(db.consumptions, NotOwnedConsumption(u), 1, failAt)[i].userId != u
    ensures failAt <= 2 ==> AfterStep(db.foods, NotOwnedFood(u), 2, failAt) == db.foods
    ensures failAt <= 3 ==> AfterStep(db.goals, NotOwnedGoal(u), 3, failAt) == db.goals
    ensures failAt <= 4 ==> AfterStep(db.sessions, NotOwnedRecord(u), 4, failAt) == db.sessions
    ensures failAt <= 5 ==> AfterStep(db.accounts, NotOwnedRecord(u), 5, failAt) == db.accounts
  {
  }
}
