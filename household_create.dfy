/** app/api/household/create/route.ts: `POST /api/household/create`. */
module HouseholdCreate {
  import opened Common
  import opened Store

  /** The request body: `{ name, wasteGoal }`. */
  datatype CreateBody = CreateBody(name: Option<string>, wasteGoal: Scalar)

  const NameRequired := "Household name is required"
  const AlreadyMember := "You are already part of a household"
  const CreateFailed := "Failed to create household"
  const DefaultWasteGoal := 10.0

  /** `wasteGoal ? parseFloat(wasteGoal) : 10` */
  function WasteGoal(v: Scalar, parseText: string -> real): (g: real)
    ensures !Truthy(v) ==> g == 10.0
    ensures Truthy(v) ==> g == ParseFloat(v, parseText)
  {
    if Truthy(v) then ParseFloat(v, parseText) else DefaultWasteGoal
  }

  /** `nanoid(8).toUpperCase()`: the generated id upper-cased; it holds no lower-case letter. */
  function JoinCodeFrom(generated: string): (code: string)
    ensures |code| == |generated|
    ensures NoLower(code)
    ensures NoLower(generated) ==> code == generated
  {
    UpperHasNoLower(generated);
    ToUpper(generated)
  }

  /** The store rejects the insert: the creator is not a stored user (the `connect` fails), or the
    * row id or the join code is already taken (unique constraints). */
  predicate InsertRejected(users: map<UserId, User>, households: map<string, Household>, caller: UserId, newId: string, code: string) {
    caller !in users || newId in households || JoinCodeUsed(households, code)
  }

  /** Handle the request. `generated` is what `nanoid(8)` returned and `newId` the id the store
    * assigns to the new row; `parseText` is `parseFloat` on strings. */
  method Post(db: Db, session: Option<UserId>, body: CreateBody, generated: string, newId: string, parseText: string -> real)
    returns (r: Response<HouseholdView>)
    requires db.Valid()
    modifies db
    ensures db.Valid()
    ensures Caller(session).None? ==> r == Fail(401, UnauthorizedMessage)
    ensures Caller(session).Some? && !TruthyText(body.name) ==> r == Fail(400, NameRequired)
    ensures Caller(session).Some? && TruthyText(body.name) && HasHousehold(old(db.users), old(db.households), session.value)
      ==> r == Fail(400, AlreadyMember)
    ensures Caller(session).Some? && TruthyText(body.name) && !HasHousehold(old(db.users), old(db.households), session.value)
      && InsertRejected(old(db.users), old(db.households), session.value, newId, JoinCodeFrom(generated))
      ==> r == Fail(500, CreateFailed)
    ensures r.Fail? ==> unchanged(db)
    ensures r.Ok? <==>
      && Caller(session).Some? && TruthyText(body.name)
      && !HasHousehold(old(db.users), old(db.households), session.value)
      && !InsertRejected(old(db.users), old(db.households), session.value, newId, JoinCodeFrom(generated))
    ensures r.Ok? ==>
      var caller := session.value;
      && db.households == old(db.households)[newId := Household(body.name.value, JoinCodeFrom(generated), WasteGoal(body.wasteGoal, parseText))]
      && db.users == old(db.users)[caller := old(db.users)[caller].(householdId := Some(newId))]
      && db.ingredients == old(db.ingredients) && db.foodWaste == old(db.foodWaste) && db.recipes == old(db.recipes)
      && r.body == ViewOf(db.users, db.households, newId)
      && r.body.members == {MemberOf(old(db.users), caller)}
  {
    var caller := Caller(session);
    if caller.None? {
      return Fail(401, UnauthorizedMessage);
    }
    var uid := caller.value;
    if !TruthyText(body.name) {
      return Fail(400, NameRequired);
    }
    if HasHousehold(db.users, db.households, uid) {
      return Fail(400, AlreadyMember);
    }
    var code := JoinCodeFrom(generated);
    if InsertRejected(db.users, db.households, uid, newId, code) {
      return Fail(500, CreateFailed);
    }
    ghost var users0, households0 := db.users, db.households;
    var creator := db.users[uid];
    assert creator.householdId.None?;
    db.households := db.households[newId := Household(body.name.value, code, WasteGoal(body.wasteGoal, parseText))];
    db.users := db.users[uid := creator.(householdId := Some(newId))];
    JoiningKeepsHouseholdsInhabited(users0, households0, uid, newId, db.users, db.households);
    assert db.users.Keys == users0.Keys;
    r := Ok(ViewOf(db.users, db.households, newId));
    forall u | u in users0 && u != uid ensures db.users[u].householdId != Some(newId) {
      assert db.users[u] == users0[u];
    }
    assert MemberOf(db.users, uid) in r.body.members;
  }
}
