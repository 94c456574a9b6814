/** app/api/food-waste/route.ts: `GET` and `POST /api/food-waste`. */
module FoodWasteRoute {
  import opened Common
  import opened Sorting
  import opened Store

  const FieldsRequired := "Ingredient name, quantity, and unit are required"
  const CreateFailed := "Failed to create food waste record"

  /** The report window: thirty days of milliseconds before the request time. */
  const WindowMs := 30 * 86400000

  // ---------------------------------------------------------------------------
  // GET

  /** The query's `where`: the caller's own records wasted at or after `since`. */
  predicate InWindow(caller: UserId, since: int, x: FoodWaste) {
    x.userId == caller && x.wastedAt >= since
  }

  /** The records in the window, in table order. */
  function Recent(rows: seq<FoodWaste>, caller: UserId, since: int): (r: seq<FoodWaste>)
    ensures forall x :: multiset(r)[x] == if InWindow(caller, since, x) then multiset(rows)[x] else 0
    ensures |r| <= |rows|
  {
    if |rows| == 0 then []
    else
      var rest := Recent(rows[..|rows| - 1], caller, since);
      var last := rows[|rows| - 1];
      assert rows == rows[..|rows| - 1] + [last];
      if InWindow(caller, since, last) then rest + [last] else rest
  }

  function WastedAt(x: FoodWaste): int {
    x.wastedAt
  }

  /** The sum of the quantities, as `reduce((acc, record) => acc + record.quantity, 0)` computes it. */
  function Sum(rows: seq<FoodWaste>): (r: real)
    ensures |rows| == 0 ==> r == 0.0
    ensures (forall k :: 0 <= k < |rows| ==> rows[k].quantity >= 0.0) ==> r >= 0.0
  {
    if |rows| == 0 then 0.0 else rows[0].quantity + Sum(rows[1..])
  }

  lemma {:induction false} SumAppend(a: seq<FoodWaste>, b: seq<FoodWaste>)
    ensures Sum(a + b) == Sum(a) + Sum(b)
  {
    if |a| == 0 {
      assert a + b == b;
    } else {
      assert (a + b)[1..] == a[1..] + b;
      SumAppend(a[1..], b);
    }
  }

  /** Inserting a record into a newest-first sequence adds its quantity to the sum. */
  lemma {:induction false} SumInsert(x: FoodWaste, s: seq<FoodWaste>)
    requires SortedDesc(s, WastedAt)
    ensures Sum(InsertDesc(x, s, WastedAt)) == x.quantity + Sum(s)
  {
    if |s| > 0 && WastedAt(x) < WastedAt(s[0]) {
      SumInsert(x, s[1..]);
      assert ([s[0]] + InsertDesc(x, s[1..], WastedAt))[1..] == InsertDesc(x, s[1..], WastedAt);
    } else if |s| > 0 {
      assert ([x] + s)[1..] == s;
    }
  }

  /** Sorting the records newest first does not change their total. */
  lemma {:induction false} SumSorted(s: seq<FoodWaste>)
    ensures Sum(SortDesc(s, WastedAt)) == Sum(s)
  {
    if |s| > 0 {
      SumSorted(s[1..]);
      SumInsert(s[0], SortDesc(s[1..], WastedAt));
    }
  }

  datatype Stats = Stats(totalWaste: real, moneySaved: real, co2Reduced: real, itemsSaved: nat)

  datatype Report = Report(records: seq<FoodWaste>, stats: Stats)

  /** `GET`: the caller's records of the last thirty days, newest first, with their totals. */
  function Get(db: Db, session: Option<UserId>, now: int): (r: Response<Report>)
    reads db
    ensures Caller(session).None? <==> r == Fail(401, UnauthorizedMessage)
    ensures Caller(session).Some? ==> r.Ok?
    ensures r.Ok? ==> forall x ::
      x in r.body.records <==> x in db.foodWaste && x.userId == session.value && x.wastedAt >= now - WindowMs
    ensures r.Ok? ==> forall x ::
      multiset(r.body.records)[x] == if InWindow(session.value, now - WindowMs, x) then multiset(db.foodWaste)[x] else 0
    ensures r.Ok? ==> SortedDesc(r.body.records, WastedAt)
    ensures r.Ok? ==> r.body.stats.itemsSaved == |r.body.records|
    ensures r.Ok? ==> r.body.stats.totalWaste == Sum(Recent(db.foodWaste, session.value, now - WindowMs))
    ensures r.Ok? ==> r.body.stats.moneySaved == 5.0 * r.body.stats.totalWaste
    ensures r.Ok? ==> r.body.stats.co2Reduced == 2.5 * r.body.stats.totalWaste
  {
    match Caller(session)
    case None => Fail(401, UnauthorizedMessage)
    case Some(uid) =>
      var recent := Recent(db.foodWaste, uid, now - WindowMs);
      var records := SortDesc(recent, WastedAt);
      assert forall x :: x in records <==> x in multiset(records);
      SumSorted(recent);
      var total := Sum(records);
      Ok(Report(records, Stats(total, total * 5.0, total * 2.5, |records|)))
  }

  /** A record just logged by the caller falls in the caller's window and adds its quantity to
    * the total; records of other users change nothing. */
  lemma LoggedRecordCounts(rows: seq<FoodWaste>, caller: UserId, since: int, x: FoodWaste)
    ensures InWindow(caller, since, x) ==> Sum(Recent(rows + [x], caller, since)) == Sum(Recent(rows, caller, since)) + x.quantity
    ensures !InWindow(caller, since, x) ==> Recent(rows + [x], caller, since) == Recent(rows, caller, since)
  {
    assert (rows + [x])[..|rows + [x]| - 1] == rows;
    SumAppend(Recent(rows, caller, since), [x]);
  }

  /** Two records of the caller inside the window, of quantities 2 and 3.5: 5.5 wasted, 27.5 of
    * money and 13.75 of CO2, over two items. */
  lemma TwoRecordReport(db: Db, uid: UserId, now: int, a: FoodWaste, b: FoodWaste)
    requires uid != "" && db.foodWaste == [a, b]
    requires a.userId == uid && b.userId == uid && a.wastedAt >= now - WindowMs && b.wastedAt >= now - WindowMs
    requires a.quantity == 2.0 && b.quantity == 3.5
    ensures Get(db, Some(uid), now).Ok?
    ensures Get(db, Some(uid), now).body.stats == Stats(5.5, 27.5, 13.75, 2)
  {
    assert [a, b][..1] == [a];
    assert Recent(db.foodWaste, uid, now - WindowMs) == [a, b];
    assert [a, b][1..] == [b] && [b][1..] == [];
    assert Sum([b]) == 3.5;
    assert Sum([a, b]) == 5.5;
  }

  // ---------------------------------------------------------------------------
  // POST

  /** The request body: `{ ingredientName, quantity, unit, reason }`. */
  datatype WasteBody = WasteBody(
    ingredientName: Option<string>,
    quantity: Scalar,
    unit: Option<string>,
    reason: Option<string>)

  predicate Complete(body: WasteBody) {
    TruthyText(body.ingredientName) && Truthy(body.quantity) && TruthyText(body.unit)
  }

  /** `POST`: log one wasted ingredient for the caller. `newId` and `now` are the id and the
    * `wastedAt` default the store assigns; `parseText` is `parseFloat` on strings. */
  method Post(db: Db, session: Option<UserId>, body: WasteBody, newId: string, now: int, parseText: string -> real)
    returns (r: Response<FoodWaste>)
    requires db.Valid()
    modifies db
    ensures db.Valid()
    ensures Caller(session).None? ==> r == Fail(401, UnauthorizedMessage)
    ensures Caller(session).Some? && !Complete(body) ==> r == Fail(400, FieldsRequired)
    ensures Caller(session).Some? && Complete(body) && (session.value !in old(db.users) || FoodWasteIdUsed(old(db.foodWaste), newId))
      ==> r == Fail(500, CreateFailed)
    ensures r.Fail? ==> unchanged(db)
    ensures r.Ok? <==>
      Caller(session).Some? && Complete(body) && session.value in old(db.users) && !FoodWasteIdUsed(old(db.foodWaste), newId)
    ensures r.Ok? ==>
      && Caller(session).Some? && Complete(body)
      && r.body == FoodWaste(newId, body.ingredientName.value, ParseFloat(body.quantity, parseText), body.unit.value,
                             body.reason, session.value, now)
      && db.foodWaste == old(db.foodWaste) + [r.body]
      && db.users == old(db.users) && db.households == old(db.households)
      && db.ingredients == old(db.ingredients) && db.recipes == old(db.recipes)
  {
    var caller := Caller(session);
    if caller.None? {
      return Fail(401, UnauthorizedMessage);
    }
    var uid := caller.value;
    if !Complete(body) {
      return Fail(400, FieldsRequired);
    }
    if uid !in db.users || FoodWasteIdUsed(db.foodWaste, newId) {
      return Fail(500, CreateFailed);
    }
    var row := FoodWaste(newId, body.ingredientName.value, ParseFloat(body.quantity, parseText), body.unit.value,
                         body.reason, uid, now);
    db.foodWaste := db.foodWaste + [row];
    r := Ok(row);
  }
}
