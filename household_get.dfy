/** app/api/household/route.ts: `GET /api/household`, a read-only query. */
module HouseholdRoute {
  import opened Common
  import opened Store

  /** `{ household }` for the caller: `None` is `household: null`. */
  function Get(db: Db, session: Option<UserId>): (r: Response<Option<HouseholdView>>)
    reads db
    ensures Caller(session).None? <==> r == Fail(401, UnauthorizedMessage)
    ensures Caller(session).Some? ==> r.Ok?
    ensures r.Ok? ==> (r.body.None? <==> !HasHousehold(db.users, db.households, session.value))
    ensures r.Ok? && r.body.Some? ==>
      var hid := db.users[session.value].householdId.value;
      && r.body.value.id == hid
      && r.body.value.name == db.households[hid].name
      && r.body.value.joinCode == db.households[hid].joinCode
      && r.body.value.wasteGoal == db.households[hid].wasteGoal
      && MemberOf(db.users, session.value) in r.body.value.members
    ensures r.Ok? && r.body.Some? ==>
      forall m :: m in r.body.value.members <==>
        && m.id in db.users && db.users[m.id].householdId == db.users[session.value].householdId
        && m == Member(m.id, db.users[m.id].name, db.users[m.id].email)
  {
    match Caller(session)
    case None => Fail(401, UnauthorizedMessage)
    case Some(uid) =>
      if HasHousehold(db.users, db.households, uid) then
        Ok(Some(ViewOf(db.users, db.households, db.users[uid].householdId.value)))
      else
        Ok(None)
  }
}
