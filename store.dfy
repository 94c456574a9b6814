/** The relational store behind the route handlers, as explicit tables with foreign-key fields,
  * and the values the handlers exchange with their callers. */
module Store {
  import opened Common
  import Claude

  type UserId = string

  datatype User = User(name: string, email: string, householdId: Option<string>)

  datatype Household = Household(name: string, joinCode: string, wasteGoal: real)

  /** Times (`createdAt`, `expiryDate`, `wastedAt`) are milliseconds since the epoch. */
  datatype Ingredient = Ingredient(
    id: string,
    name: string,
    quantity: real,
    unit: string,
    category: string,
    expiryDate: Option<int>,
    userId: UserId,
    createdAt: int)

  datatype FoodWaste = FoodWaste(
    id: string,
    ingredientName: string,
    quantity: real,
    unit: string,
    reason: Option<string>,
    userId: UserId,
    wastedAt: int)

  datatype Recipe = Recipe(
    id: string,
    title: string,
    description: string,
    ingredients: seq<Claude.RecipeItem>,
    instructions: seq<string>,
    prepTime: int,
    cookTime: int,
    servings: int,
    difficulty: string,
    cuisine: string,
    savedIngredients: seq<string>,
    userId: UserId,
    createdAt: int)

  /** The fields of a user that responses expose: id, name and email. */
  datatype Member = Member(id: UserId, name: string, email: string)

  /** A household with its members, as the household routes return it. */
  datatype HouseholdView = HouseholdView(
    id: string,
    name: string,
    joinCode: string,
    wasteGoal: real,
    members: set<Member>)

  /** An HTTP response: a JSON body with status 200, or an error message with its status. */
  datatype Response<T> = Ok(body: T) | Fail(status: int, error: string)

  const UnauthorizedMessage := "Unauthorized"

  /** `session?.user?.id`, when truthy. */
  function Caller(session: Option<UserId>): (r: Option<UserId>)
    ensures r.Some? <==> TruthyText(session)
    ensures r.Some? ==> r == session
  {
    if TruthyText(session) then session else None
  }

  /** `user?.household` is set: the user exists and refers to a stored household. */
  predicate HasHousehold(users: map<UserId, User>, households: map<string, Household>, id: UserId) {
    id in users && users[id].householdId.Some? && users[id].householdId.value in households
  }

  function MemberOf(users: map<UserId, User>, id: UserId): (m: Member)
    requires id in users
    ensures m.id == id
  {
    Member(id, users[id].name, users[id].email)
  }

  /** The users whose `householdId` is `hid`, each reduced to id, name and email. */
  function MembersOf(users: map<UserId, User>, hid: string): (ms: set<Member>)
    ensures forall m :: m in ms <==> m.id in users && users[m.id].householdId == Some(hid) && m == MemberOf(users, m.id)
  {
    set u | u in users && users[u].householdId == Some(hid) :: MemberOf(users, u)
  }

  function ViewOf(users: map<UserId, User>, households: map<string, Household>, hid: string): (v: HouseholdView)
    requires hid in households
    ensures v.id == hid && v.members == MembersOf(users, hid)
  {
    var h := households[hid];
    HouseholdView(hid, h.name, h.joinCode, h.wasteGoal, MembersOf(users, hid))
  }

  // ---------------------------------------------------------------------------
  // What `Db.Valid()` collects: constraints the database itself enforces (unique ids and join
  // codes, references to stored users and households) and invariants that the modelled handlers
  // keep (join codes stored upper case, no household without members).

  /** Every user's household reference points at a stored household. */
  ghost predicate HouseholdRefsExist(users: map<UserId, User>, households: map<string, Household>) {
    forall u :: u in users && users[u].householdId.Some? ==> users[u].householdId.value in households
  }

  /** The unique index on `joinCode`. */
  ghost predicate JoinCodesUnique(households: map<string, Household>) {
    forall h1, h2 :: h1 in households && h2 in households && households[h1].joinCode == households[h2].joinCode ==> h1 == h2
  }

  /** Every stored join code is upper case. */
  ghost predicate JoinCodesUpper(households: map<string, Household>) {
    forall h :: h in households ==> NoLower(households[h].joinCode)
  }

  /** No household is left without members. */
  ghost predicate HouseholdsInhabited(users: map<UserId, User>, households: map<string, Household>) {
    forall h :: h in households ==> exists u :: u in users && users[u].householdId == Some(h)
  }

  ghost predicate IngredientTableValid(users: map<UserId, User>, rows: seq<Ingredient>) {
    && (forall i, j :: 0 <= i < j < |rows| ==> rows[i].id != rows[j].id)
    && (forall i :: 0 <= i < |rows| ==> rows[i].userId in users)
  }

  ghost predicate FoodWasteTableValid(users: map<UserId, User>, rows: seq<FoodWaste>) {
    && (forall i, j :: 0 <= i < j < |rows| ==> rows[i].id != rows[j].id)
    && (forall i :: 0 <= i < |rows| ==> rows[i].userId in users)
  }

  ghost predicate RecipeTableValid(users: map<UserId, User>, rows: seq<Recipe>) {
    && (forall i, j :: 0 <= i < j < |rows| ==> rows[i].id != rows[j].id)
    && (forall i :: 0 <= i < |rows| ==> rows[i].userId in users)
  }

  predicate IngredientIdUsed(rows: seq<Ingredient>, id: string) {
    exists i :: 0 <= i < |rows| && rows[i].id == id
  }

  predicate FoodWasteIdUsed(rows: seq<FoodWaste>, id: string) {
    exists i :: 0 <= i < |rows| && rows[i].id == id
  }

  predicate RecipeIdUsed(rows: seq<Recipe>, id: string) {
    exists i :: 0 <= i < |rows| && rows[i].id == id
  }

  predicate JoinCodeUsed(households: map<string, Household>, code: string) {
    exists h :: h in households && households[h].joinCode == code
  }

  /** A user who belonged to no household joins `hid` (a stored household or a new one):
    * no household is left without members. */
  lemma JoiningKeepsHouseholdsInhabited(
    users0: map<UserId, User>, households0: map<string, Household>, uid: UserId, hid: string,
    users1: map<UserId, User>, households1: map<string, Household>)
    requires HouseholdsInhabited(users0, households0)
    requires uid in users0 && users0[uid].householdId.None?
    requires households1.Keys == households0.Keys + {hid}
    requires users1 == users0[uid := users0[uid].(householdId := Some(hid))]
    ensures HouseholdsInhabited(users1, households1)
  {
    forall h | h in households1 ensures exists u :: u in users1 && users1[u].householdId == Some(h) {
      if h == hid {
        assert users1[uid].householdId == Some(h);
      } else {
        var u :| u in users0 && users0[u].householdId == Some(h);
        assert users1[u].householdId == Some(h);
      }
    }
  }

  /** A user who belonged to no household joins `hid`: the household's members become the
    * previous members plus that user. */
  lemma JoiningAddsMember(users0: map<UserId, User>, uid: UserId, hid: string, users1: map<UserId, User>)
    requires uid in users0 && users0[uid].householdId.None?
    requires users1 == users0[uid := users0[uid].(householdId := Some(hid))]
    ensures MembersOf(users1, hid) == MembersOf(users0, hid) + {MemberOf(users0, uid)}
  {
    assert MemberOf(users1, uid) == MemberOf(users0, uid);
    forall u | u in users0 && u != uid ensures users1[u] == users0[u] && MemberOf(users1, u) == MemberOf(users0, u) {
    }
  }

  /** The store: one field per table. The handlers in the route modules update it in place. */
  class Db {
    var users: map<UserId, User>
    var households: map<string, Household>
    var ingredients: seq<Ingredient>
    var foodWaste: seq<FoodWaste>
    var recipes: seq<Recipe>

    ghost predicate Valid()
      reads this
    {
      && HouseholdRefsExist(users, households)
      && JoinCodesUnique(households)
      && JoinCodesUpper(households)
      && HouseholdsInhabited(users, households)
      && IngredientTableValid(users, ingredients)
      && FoodWasteTableValid(users, foodWaste)
      && RecipeTableValid(users, recipes)
    }

    /** A store holding the signed-up users, none of them in a household yet. */
    constructor (accounts: map<UserId, User>)
      requires forall u :: u in accounts ==> accounts[u].householdId.None?
      ensures Valid()
      ensures users == accounts && households == map[]
      ensures ingredients == [] && foodWaste == [] && recipes == []
    {
      users := accounts;
      households := map[];
      ingredients := [];
      foodWaste := [];
      recipes := [];
    }
  }
}
