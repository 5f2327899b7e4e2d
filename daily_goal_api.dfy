/**
 * `/api/daily-goal`: every POST adds a goal record dated now, and GET answers
 * the user's latest one. Goals are never edited or deleted, so the table is
 * the history of the user's goals.
 */
module DailyGoalApi {
  import opened Wrappers
  import opened Records
  import opened Tables
  import opened Store

  /** POST: a new goal of the session user with the given values, unchecked, dated now. */
  method Post(db: Database, session: Option<UserId>, calorieGoal: real, proteinGoal: real, now: int) returns (r: Response<DailyGoal>)
    requires db.Valid()
    modifies db
    ensures db.Valid()
    ensures session.None? ==> r == Unauthorized && unchanged(db)
    ensures session.Some? ==>
      var g := DailyGoal(old(db.nextId), session.value, calorieGoal, proteinGoal, now);
      && r == Ok(g)
      && db.goals == old(db.goals) + [g]
      && db.nextId == old(db.nextId) + 1
      && (forall x :: x in old(db.goals) ==> x.id != g.id)
    ensures db.foods == old(db.foods) && db.consumptions == old(db.consumptions) && db.users == old(db.users)
    ensures db.sessions == old(db.sessions) && db.accounts == old(db.accounts)
  {
    if session.None? {
      return Unauthorized;
    }
    var g := DailyGoal(db.nextId, session.value, calorieGoal, proteinGoal, now);
    db.goals := db.goals + [g];
    db.nextId := db.nextId + 1;
    r := Ok(g);
  }

  /**
   * `findFirst` ordered by date descending: the user's goal with the latest
   * date, none when the user has no goal. Of goals with the same date the
   * one stored last is taken.
   */
  function Latest(goals: seq<DailyGoal>, user: UserId): (r: Option<DailyGoal>)
    ensures r.None? <==> forall i :: 0 <= i < |goals| ==> goals[i].userId != user
    ensures r.Some? ==> r.value in goals && r.value.userId == user
    ensures r.Some? ==> forall i :: 0 <= i < |goals| && goals[i].userId == user ==> goals[i].date <= r.value.date
  {
    if goals == [] then None
    else
      var rest := Latest(goals[1..], user);
      assert forall i :: 1 <= i < |goals| ==> goals[i] == goals[1..][i - 1];
      if goals[0].userId != user then rest
      else if rest.Some? && rest.value.date >= goals[0].date then rest
      else Some(goals[0])
  }

  /** GET: the session user's latest goal, or null. */
  method Get(db: Database, session: Option<UserId>) returns (r: Response<Option<DailyGoal>>)
    ensures session.None? ==> r == Unauthorized
    ensures session.Some? ==> r == Ok(Latest(db.goals, session.value))
  {
    if session.None? {
      return Unauthorized;
    }
    r := Ok(Latest(db.goals, session.value));
  }

  function OwnedBy(user: UserId): DailyGoal -> bool
  {
    (g: DailyGoal) => g.userId == user
  }

  /** Other users' goals play no part in the answer. */
  lemma {:induction false} OthersIgnored(goals: seq<DailyGoal>, user: UserId)
    ensures Latest(goals, user) == Latest(Filter(goals, OwnedBy(user)), user)
  {
    if goals != [] {
      OthersIgnored(goals[1..], user);
      if goals[0].userId == user {
        assert Filter(goals, OwnedBy(user))[1..] == Filter(goals[1..], OwnedBy(user));
      }
    }
  }

  /**
   * A goal posted at a time no earlier than the user's other goals is the
   * one GET answers next.
   */
  lemma {:induction false} PostedGoalIsLatest(goals: seq<DailyGoal>, g: DailyGoal)
    requires forall i :: 0 <= i < |goals| && goals[i].userId == g.userId ==> goals[i].date <= g.date
    ensures Latest(goals + [g], g.userId) == Some(g)
  {
    if goals == [] {
      assert [g][1..] == [];
    } else {
      assert (goals + [g])[1..] == goals[1..] + [g];
      PostedGoalIsLatest(goals[1..], g);
    }
  }
}
