/**
 * `/api/food`: create a food owned by the session user (POST) and list the
 * user's foods (GET).
 */
module FoodApi {
  import opened Wrappers
  import opened Records
  import opened Tables
  import opened Store

  /** `!session?.user?.id`: a missing session and an empty user id are both refused. */
  predicate Authorized(session: Option<UserId>)
  {
    session.Some? && session.value != ""
  }

  /**
   * POST: the food is stored as given, with no validation, owned by the
   * session user whatever the body says, and answered with 201.
   */
  method Post(db: Database, session: Option<UserId>, name: string, caloriesPerUnit: real, proteinPerUnit: real) returns (r: Response<Food>)
    requires db.Valid()
    modifies db
    ensures db.Valid()
    ensures !Authorized(session) ==> r == Unauthorized && unchanged(db)
    ensures Authorized(session) ==>
      var f := Food(old(db.nextId), name, caloriesPerUnit, proteinPerUnit, session.value);
      && r == Created(f)
      && db.foods == old(db.foods) + [f]
      && db.nextId == old(db.nextId) + 1
      && (forall x :: x in old(db.foods) ==> x.id != f.id)
    ensures db.consumptions == old(db.consumptions) && db.goals == old(db.goals) && db.users == old(db.users)
    ensures db.sessions == old(db.sessions) && db.accounts == old(db.accounts)
  {
    if !Authorized(session) {
      return Unauthorized;
    }
    var f := Food(db.nextId, name, caloriesPerUnit, proteinPerUnit, session.value);
    db.foods := db.foods + [f];
    db.nextId := db.nextId + 1;
    r := Created(f);
  }

  function Owner(user: UserId): Food -> bool
  {
    (f: Food) => f.userId == user
  }

  /** The foods of a user, in table order. */
  function OwnedFoods(foods: seq<Food>, user: UserId): (r: seq<Food>)
    ensures forall i :: 0 <= i < |r| ==> r[i] in foods && r[i].userId == user
    ensures forall i :: 0 <= i < |foods| && foods[i].userId == user ==> foods[i] in r
  {
    Filter(foods, Owner(user))
  }

  /** GET: exactly the session user's foods. */
  method Get(db: Database, session: Option<UserId>) returns (r: Response<seq<Food>>)
    ensures !Authorized(session) ==> r == Unauthorized
    ensures Authorized(session) ==> r == Ok(OwnedFoods(db.foods, session.value))
  {
    if !Authorized(session) {
      return Unauthorized;
    }
    r := Ok(OwnedFoods(db.foods, session.value));
  }

  /**
   * After a POST the poster's list gains the new food at its end and every
   * other user's list is as before.
   */
  lemma PostedFoodListed(foods: seq<Food>, f: Food, user: UserId)
    ensures f.userId == user ==> OwnedFoods(foods + [f], user) == OwnedFoods(foods, user) + [f]
    ensures f.userId != user ==> OwnedFoods(foods + [f], user) == OwnedFoods(foods, user)
  {
    FilterAppend(foods, [f], Owner(user));
    assert [f][1..] == [];
  }
}
