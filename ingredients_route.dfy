/** app/api/ingredients/route.ts: `GET`, `POST` and `DELETE /api/ingredients`. */
module IngredientsRoute {
  import opened Common
  import opened Sorting
  import opened Store

  const FieldsRequired := "Name, quantity, unit, and category are required"
  const IdRequired := "Ingredient ID is required"
  const CreateFailed := "Failed to create ingredient"
  const DeleteFailed := "Failed to delete ingredient"
  const Deleted := "Ingredient deleted successfully"

  // ---------------------------------------------------------------------------
  // GET

  /** Whose ingredients the caller sees: those of every user in the caller's household when the
    * caller has one (`user?.householdId`, so an empty id counts as none), otherwise the caller's own. */
  predicate VisibleTo(users: map<UserId, User>, caller: UserId, x: Ingredient) {
    if caller in users && TruthyText(users[caller].householdId) then
      x.userId in users && users[x.userId].householdId == users[caller].householdId
    else
      x.userId == caller
  }

  /** The rows the query's `where` selects, in table order. */
  function Visible(users: map<UserId, User>, rows: seq<Ingredient>, caller: UserId): (r: seq<Ingredient>)
    ensures forall x :: multiset(r)[x] == if VisibleTo(users, caller, x) then multiset(rows)[x] else 0
  {
    if |rows| == 0 then []
    else
      var rest := Visible(users, rows[..|rows| - 1], caller);
      var last := rows[|rows| - 1];
      assert rows == rows[..|rows| - 1] + [last];
      if VisibleTo(users, caller, last) then rest + [last] else rest
  }

  function CreatedAt(x: Ingredient): int {
    x.createdAt
  }

  /** The selected rows, newest first (`orderBy: { createdAt: "desc" }`). */
  function Listing(users: map<UserId, User>, rows: seq<Ingredient>, caller: UserId): (r: seq<Ingredient>)
    ensures SortedDesc(r, CreatedAt)
    ensures forall x :: x in r <==> x in rows && VisibleTo(users, caller, x)
    ensures forall x :: multiset(r)[x] == if VisibleTo(users, caller, x) then multiset(rows)[x] else 0
  {
    var r := SortDesc(Visible(users, rows, caller), CreatedAt);
    assert forall x :: x in r <==> x in multiset(r);
    r
  }

  /** An ingredient as the list returns it, with its owner's id, name and email (`include: { user }`). */
  datatype Listed = Listed(item: Ingredient, user: Member)

  function Annotate(users: map<UserId, User>, rows: seq<Ingredient>): (r: seq<Listed>)
    requires forall k :: 0 <= k < |rows| ==> rows[k].userId in users
    ensures |r| == |rows|
    ensures forall k :: 0 <= k < |r| ==> r[k].item == rows[k] && r[k].user == MemberOf(users, rows[k].userId)
  {
    seq(|rows|, k requires 0 <= k < |rows| => Listed(rows[k], MemberOf(users, rows[k].userId)))
  }

  /** `GET`: the ingredients the caller may see, newest first, each with its owner. */
  function Get(db: Db, session: Option<UserId>): (r: Response<seq<Listed>>)
    requires IngredientTableValid(db.users, db.ingredients)
    reads db
    ensures Caller(session).None? <==> r == Fail(401, UnauthorizedMessage)
    ensures Caller(session).Some? ==> r.Ok?
    ensures r.Ok? ==> forall k :: 0 <= k < |r.body| ==>
      && r.body[k].item in db.ingredients
      && VisibleTo(db.users, session.value, r.body[k].item)
      && r.body[k].user == MemberOf(db.users, r.body[k].item.userId)
    ensures r.Ok? ==> forall x :: x in db.ingredients && VisibleTo(db.users, session.value, x) ==>
      exists k :: 0 <= k < |r.body| && r.body[k].item == x
    ensures r.Ok? ==> forall i, j :: 0 <= i < j < |r.body| ==> r.body[i].item.createdAt >= r.body[j].item.createdAt
    ensures r.Ok? ==> |r.body| == |Listing(db.users, db.ingredients, session.value)|
    ensures r.Ok? ==> forall k :: 0 <= k < |r.body| ==> r.body[k].item == Listing(db.users, db.ingredients, session.value)[k]
  {
    match Caller(session)
    case None => Fail(401, UnauthorizedMessage)
    case Some(uid) =>
      ListingOwnersExist(db.users, db.ingredients, uid);
      var r := Annotate(db.users, Listing(db.users, db.ingredients, uid));
      ListedRows(db.users, db.ingredients, uid);
      Ok(r)
  }

  lemma ListingOwnersExist(users: map<UserId, User>, rows: seq<Ingredient>, caller: UserId)
    requires IngredientTableValid(users, rows)
    ensures forall k :: 0 <= k < |Listing(users, rows, caller)| ==> Listing(users, rows, caller)[k].userId in users
  {
    var l := Listing(users, rows, caller);
    forall k | 0 <= k < |l| ensures l[k].userId in users {
      assert l[k] in rows;
    }
  }

  /** The annotated listing: rows that are stored and visible, each visible row once at least,
    * each with its owner, newest first. */
  lemma ListedRows(users: map<UserId, User>, rows: seq<Ingredient>, caller: UserId)
    requires IngredientTableValid(users, rows)
    ensures forall k :: 0 <= k < |Listing(users, rows, caller)| ==> Listing(users, rows, caller)[k].userId in users
    ensures var r := Annotate(users, Listing(users, rows, caller));
      && (forall k :: 0 <= k < |r| ==>
        && r[k].item in rows
        && VisibleTo(users, caller, r[k].item)
        && r[k].user == MemberOf(users, r[k].item.userId))
      && (forall x :: x in rows && VisibleTo(users, caller, x) ==> exists k :: 0 <= k < |r| && r[k].item == x)
      && (forall i, j :: 0 <= i < j < |r| ==> r[i].item.createdAt >= r[j].item.createdAt)
  {
    ListingOwnersExist(users, rows, caller);
    var l := Listing(users, rows, caller);
    var r := Annotate(users, l);
    forall k | 0 <= k < |r| ensures r[k].item in rows && VisibleTo(users, caller, r[k].item) {
      assert r[k].item == l[k] && l[k] in l;
    }
    forall x | x in rows && VisibleTo(users, caller, x) ensures exists k :: 0 <= k < |r| && r[k].item == x {
      assert x in l;
      var k :| 0 <= k < |l| && l[k] == x;
      assert r[k].item == x;
    }
    forall i, j | 0 <= i < j < |r| ensures r[i].item.createdAt >= r[j].item.createdAt {
      assert CreatedAt(l[i]) >= CreatedAt(l[j]);
    }
  }

  /** A caller in a household sees exactly the rows of the users in that household. */
  lemma HouseholdScopedVisibility(users: map<UserId, User>, rows: seq<Ingredient>, caller: UserId, hid: string, x: Ingredient)
    requires caller in users && users[caller].householdId == Some(hid) && hid != ""
    ensures x in Listing(users, rows, caller) <==> x in rows && x.userId in users && users[x.userId].householdId == Some(hid)
  {
  }

  /** A household id that is the empty string is falsy, so its holder sees only their own rows. */
  lemma EmptyHouseholdIdSeesOwnRows(users: map<UserId, User>, rows: seq<Ingredient>, caller: UserId, x: Ingredient)
    requires caller in users && users[caller].householdId == Some("")
    ensures x in Listing(users, rows, caller) <==> x in rows && x.userId == caller
  {
  }

  /** Every caller, in a household or not, sees the rows they own themselves. */
  lemma OwnRowsVisible(users: map<UserId, User>, caller: UserId, x: Ingredient)
    requires x.userId == caller
    ensures VisibleTo(users, caller, x)
  {
  }

  /** A row newer than every stored one comes first in a listing that may see it. */
  lemma {:induction false} NewestListedFirst(users: map<UserId, User>, rows: seq<Ingredient>, caller: UserId, x: Ingredient)
    requires VisibleTo(users, caller, x)
    requires forall k :: 0 <= k < |rows| ==> rows[k].createdAt < x.createdAt
    ensures |Listing(users, rows + [x], caller)| > 0
    ensures Listing(users, rows + [x], caller)[0] == x
  {
    var r := Listing(users, rows + [x], caller);
    assert x in rows + [x];
    assert x in r;
    var k :| 0 <= k < |r| && r[k] == x;
    var first := r[0];
    assert k == 0 || CreatedAt(first) >= CreatedAt(x);
    assert first in rows + [x];
    assert first == x || first in rows;
  }

  // ---------------------------------------------------------------------------
  // POST

  /** The request body: `{ name, quantity, unit, category, expiryDate }`. */
  datatype IngredientBody = IngredientBody(
    name: Option<string>,
    quantity: Scalar,
    unit: Option<string>,
    category: Option<string>,
    expiryDate: Option<string>)

  predicate Complete(body: IngredientBody) {
    TruthyText(body.name) && Truthy(body.quantity) && TruthyText(body.unit) && TruthyText(body.category)
  }

  /** `POST`: store one ingredient owned by the caller. `newId` and `now` are the id and creation
    * time the store assigns; `parseText` is `parseFloat` and `parseDate` is `new Date(...)` on strings. */
  method Post(db: Db, session: Option<UserId>, body: IngredientBody, newId: string, now: int,
              parseText: string -> real, parseDate: string -> int)
    returns (r: Response<Ingredient>)
    requires db.Valid()
    modifies db
    ensures db.Valid()
    ensures Caller(session).None? ==> r == Fail(401, UnauthorizedMessage)
    ensures Caller(session).Some? && !Complete(body) ==> r == Fail(400, FieldsRequired)
    ensures Caller(session).Some? && Complete(body) && (session.value !in old(db.users) || IngredientIdUsed(old(db.ingredients), newId))
      ==> r == Fail(500, CreateFailed)
    ensures r.Fail? ==> unchanged(db)
    ensures r.Ok? <==>
      Caller(session).Some? && Complete(body) && session.value in old(db.users) && !IngredientIdUsed(old(db.ingredients), newId)
    ensures r.Ok? ==>
      && Caller(session).Some? && Complete(body)
      && r.body.id == newId && r.body.userId == session.value && r.body.createdAt == now
      && r.body.name == body.name.value && r.body.unit == body.unit.value && r.body.category == body.category.value
      && r.body.quantity == ParseFloat(body.quantity, parseText)
      && r.body.expiryDate == (if TruthyText(body.expiryDate) then Some(parseDate(body.expiryDate.value)) else None)
      && db.ingredients == old(db.ingredients) + [r.body]
      && db.users == old(db.users) && db.households == old(db.households)
      && db.foodWaste == old(db.foodWaste) && db.recipes == old(db.recipes)
  {
    var caller := Caller(session);
    if caller.None? {
      return Fail(401, UnauthorizedMessage);
    }
    var uid := caller.value;
    if !Complete(body) {
      return Fail(400, FieldsRequired);
    }
    if uid !in db.users || IngredientIdUsed(db.ingredients, newId) {
      return Fail(500, CreateFailed);
    }
    var expiry := if TruthyText(body.expiryDate) then Some(parseDate(body.expiryDate.value)) else None;
    var row := Ingredient(newId, body.name.value, ParseFloat(body.quantity, parseText), body.unit.value,
                          body.category.value, expiry, uid, now);
    db.ingredients := db.ingredients + [row];
    r := Ok(row);
  }

  // ---------------------------------------------------------------------------
  // DELETE

  /** The position of the row with this id and owner, if there is one. */
  function FindOwnedRow(rows: seq<Ingredient>, id: string, owner: UserId): (r: Option<nat>)
    ensures r.Some? ==> r.value < |rows| && rows[r.value].id == id && rows[r.value].userId == owner
    ensures r.None? ==> forall k :: 0 <= k < |rows| ==> !(rows[k].id == id && rows[k].userId == owner)
  {
    if |rows| == 0 then None
    else if rows[0].id == id && rows[0].userId == owner then Some(0)
    else match FindOwnedRow(rows[1..], id, owner)
      case None => None
      case Some(k) => Some(k + 1)
  }

  /** `after` is `before` without its row at `k`, which has this id and owner. */
  ghost predicate RemovedAt(before: seq<Ingredient>, after: seq<Ingredient>, k: int, id: string, owner: UserId) {
    && 0 <= k < |before|
    && before[k].id == id && before[k].userId == owner
    && after == before[..k] + before[k + 1..]
  }

  /** Removing the one row with a unique id keeps every other row and the table's constraints. */
  lemma RemoveRow(users: map<UserId, User>, rows: seq<Ingredient>, k: nat)
    requires IngredientTableValid(users, rows) && k < |rows|
    ensures IngredientTableValid(users, rows[..k] + rows[k + 1..])
    ensures forall x :: x in rows[..k] + rows[k + 1..] <==> x in rows && x.id != rows[k].id
  {
    var after := rows[..k] + rows[k + 1..];
    assert forall i :: 0 <= i < |after| ==> after[i] == if i < k then rows[i] else rows[i + 1];
    forall x ensures x in after <==> x in rows && x.id != rows[k].id {
      if x in rows && x.id != rows[k].id {
        var i :| 0 <= i < |rows| && rows[i] == x;
        assert after[if i < k then i else i - 1] == x;
      }
    }
  }

  /** `DELETE ?id=`: remove the row with that id only if the caller owns it; a row that does not
    * exist or belongs to someone else makes the store throw, and nothing is removed. */
  method Delete(db: Db, session: Option<UserId>, id: Option<string>) returns (r: Response<string>)
    requires db.Valid()
    modifies db
    ensures db.Valid()
    ensures Caller(session).None? ==> r == Fail(401, UnauthorizedMessage)
    ensures Caller(session).Some? && !TruthyText(id) ==> r == Fail(400, IdRequired)
    ensures Caller(session).Some? && TruthyText(id) && FindOwnedRow(old(db.ingredients), id.value, session.value).None?
      ==> r == Fail(500, DeleteFailed)
    ensures r.Fail? ==> unchanged(db)
    ensures r.Ok? <==> Caller(session).Some? && TruthyText(id) && FindOwnedRow(old(db.ingredients), id.value, session.value).Some?
    ensures r.Ok? ==> r.body == Deleted
    ensures r.Ok? ==> exists k :: RemovedAt(old(db.ingredients), db.ingredients, k, id.value, session.value)
    ensures r.Ok? ==> forall x :: x in db.ingredients <==> x in old(db.ingredients) && x.id != id.value
    ensures r.Ok? ==>
      && db.users == old(db.users) && db.households == old(db.households)
      && db.foodWaste == old(db.foodWaste) && db.recipes == old(db.recipes)
  {
    var caller := Caller(session);
    if caller.None? {
      return Fail(401, UnauthorizedMessage);
    }
    var uid := caller.value;
    if !TruthyText(id) {
      return Fail(400, IdRequired);
    }
    var found := FindOwnedRow(db.ingredients, id.value, uid);
    if found.None? {
      return Fail(500, DeleteFailed);
    }
    var k := found.value;
    var rows := db.ingredients;
    RemoveRow(db.users, rows, k);
    db.ingredients := rows[..k] + rows[k + 1..];
    assert RemovedAt(rows, db.ingredients, k, id.value, uid);
    r := Ok(Deleted);
  }
}
