/** app/api/household/join/route.ts: `POST /api/household/join`. */
module HouseholdJoin {
  import opened Common
  import opened Store

  /** The request body: `{ joinCode }`. */
  datatype JoinBody = JoinBody(joinCode: Option<string>)

  const CodeRequired := "Join code is required"
  const AlreadyMember := "You are already part of a household"
  const InvalidCode := "Invalid join code"
  const JoinFailed := "Failed to join household"

  /** The household whose stored join code is `code` (there is at most one). */
  ghost function HouseholdWithCode(households: map<string, Household>, code: string): (hid: string)
    requires JoinCodeUsed(households, code)
    ensures hid in households && households[hid].joinCode == code
  {
    var hid :| hid in households && households[hid].joinCode == code; hid
  }

  /** The lookup ignores case: any request code that upper-cases to a stored code finds that
    * household, since stored codes are upper case and unique. */
  lemma JoinCodeCaseInsensitive(households: map<string, Household>, hid: string, code: string)
    requires JoinCodesUnique(households) && JoinCodesUpper(households)
    requires hid in households && ToUpper(code) == ToUpper(households[hid].joinCode)
    ensures JoinCodeUsed(households, ToUpper(code))
    ensures HouseholdWithCode(households, ToUpper(code)) == hid
  {
    UpperHasNoLower(households[hid].joinCode);
    assert households[hid].joinCode == ToUpper(code);
  }

  /** A household created with the code "AB12CD34" is found by a request that sends "ab12cd34". */
  lemma LowerCaseCodeFindsHousehold(households: map<string, Household>, hid: string)
    requires JoinCodesUnique(households) && JoinCodesUpper(households)
    requires hid in households && households[hid].joinCode == "AB12CD34"
    ensures JoinCodeUsed(households, ToUpper("ab12cd34"))
    ensures HouseholdWithCode(households, ToUpper("ab12cd34")) == hid
  {
    assert ToUpper("ab12cd34") == "AB12CD34";
    UpperHasNoLower("AB12CD34");
    JoinCodeCaseInsensitive(households, hid, "ab12cd34");
  }

  /** Handle the request. */
  method Post(db: Db, session: Option<UserId>, body: JoinBody) returns (r: Response<HouseholdView>)
    requires db.Valid()
    modifies db
    ensures db.Valid()
    ensures Caller(session).None? ==> r == Fail(401, UnauthorizedMessage)
    ensures Caller(session).Some? && !TruthyText(body.joinCode) ==> r == Fail(400, CodeRequired)
    ensures Caller(session).Some? && TruthyText(body.joinCode) && HasHousehold(old(db.users), old(db.households), session.value)
      ==> r == Fail(400, AlreadyMember)
    ensures Caller(session).Some? && TruthyText(body.joinCode) && !HasHousehold(old(db.users), old(db.households), session.value)
      && !JoinCodeUsed(old(db.households), ToUpper(body.joinCode.value))
      ==> r == Fail(404, InvalidCode)
    ensures Caller(session).Some? && TruthyText(body.joinCode) && !HasHousehold(old(db.users), old(db.households), session.value)
      && JoinCodeUsed(old(db.households), ToUpper(body.joinCode.value)) && session.value !in old(db.users)
      ==> r == Fail(500, JoinFailed)
    ensures r.Fail? ==> unchanged(db)
    ensures r.Ok? <==>
      && Caller(session).Some? && TruthyText(body.joinCode)
      && session.value in old(db.users) && old(db.users)[session.value].householdId.None?
      && JoinCodeUsed(old(db.households), ToUpper(body.joinCode.value))
    ensures r.Ok? ==>
      var caller := session.value;
      var hid := HouseholdWithCode(old(db.households), ToUpper(body.joinCode.value));
      && db.users == old(db.users)[caller := old(db.users)[caller].(householdId := Some(hid))]
      && db.households == old(db.households)
      && db.ingredients == old(db.ingredients) && db.foodWaste == old(db.foodWaste) && db.recipes == old(db.recipes)
      && r.body == ViewOf(db.users, db.households, hid)
      && r.body.members == MembersOf(old(db.users), hid) + {MemberOf(old(db.users), caller)}
  {
    var caller := Caller(session);
    if caller.None? {
      return Fail(401, UnauthorizedMessage);
    }
    var uid := caller.value;
    if !TruthyText(body.joinCode) {
      return Fail(400, CodeRequired);
    }
    if HasHousehold(db.users, db.households, uid) {
      return Fail(400, AlreadyMember);
    }
    var code := ToUpper(body.joinCode.value);
    if !JoinCodeUsed(db.households, code) {
      return Fail(404, InvalidCode);
    }
    var hid :| hid in db.households && db.households[hid].joinCode == code;
    assert hid == HouseholdWithCode(db.households, code);
    if uid !in db.users {
      return Fail(500, JoinFailed);
    }
    ghost var users0 := db.users;
    var joiner := db.users[uid];
    db.users := db.users[uid := joiner.(householdId := Some(hid))];
    JoiningKeepsHouseholdsInhabited(users0, db.households, uid, hid, db.users, db.households);
    assert db.users.Keys == users0.Keys;
    JoiningAddsMember(users0, uid, hid, db.users);
    r := Ok(ViewOf(db.users, db.households, hid));
  }
}
