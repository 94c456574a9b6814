/** components/IngredientManager.tsx: the expiry predicates, which badge an ingredient shows,
  * and the updates of the local list and of the add form. */
module IngredientManager {
  import opened Common
  import IngredientsRoute

  /** `1000 * 60 * 60 * 24` */
  const DayMs := 86400000

  /** An ingredient as the component holds it; `expiryDate` is the date string the server sent. */
  datatype Item = Item(id: string, name: string, quantity: real, unit: string, category: string, expiryDate: Option<string>)

  // ---------------------------------------------------------------------------
  // Expiry

  /** `Math.ceil(a / b)` for a positive divisor. */
  function CeilDiv(a: int, b: int): (q: int)
    requires b > 0
    ensures (q - 1) * b < a <= q * b
  {
    -((-a) / b)
  }

  /** `isExpired`: no date, or a date that does not parse (`parseDate` gives `None` for an invalid
    * date), is not expired; otherwise the date lies before `now`. */
  predicate IsExpired(expiryDate: Option<string>, now: int, parseDate: string -> Option<int>) {
    TruthyText(expiryDate) && parseDate(expiryDate.value).Some? && parseDate(expiryDate.value).value < now
  }

  /** `isExpiringSoon`: the whole days until expiry, rounded up, lie between 0 and 3. */
  predicate IsExpiringSoon(expiryDate: Option<string>, now: int, parseDate: string -> Option<int>) {
    && TruthyText(expiryDate) && parseDate(expiryDate.value).Some?
    && var days := CeilDiv(parseDate(expiryDate.value).value - now, DayMs);
       0 <= days <= 3
  }

  /** "Expiring soon" is a window of time: from just after one day before `now` through three
    * days after it. */
  lemma ExpiringSoonWindow(expiryDate: Option<string>, now: int, parseDate: string -> Option<int>)
    requires TruthyText(expiryDate) && parseDate(expiryDate.value).Some?
    ensures var e := parseDate(expiryDate.value).value;
      IsExpiringSoon(expiryDate, now, parseDate) <==> now - DayMs < e <= now + 3 * DayMs
  {
    var e := parseDate(expiryDate.value).value;
    var q := CeilDiv(e - now, DayMs);
    if 0 <= q <= 3 {
      assert -DayMs < e - now <= 3 * DayMs;
    } else if q < 0 {
      assert e - now <= q * DayMs <= -DayMs;
    } else {
      assert (q - 1) * DayMs >= 3 * DayMs;
    }
  }

  /** The badge of an ingredient with a date; the date itself is rendered with `toLocaleDateString`. */
  datatype Badge = Expired | ExpiringSoon | ExpiresOn(date: string)

  /** What the card shows: nothing without a date, and `isExpired` is tried before `isExpiringSoon`. */
  function BadgeOf(expiryDate: Option<string>, now: int, parseDate: string -> Option<int>): (b: Option<Badge>)
    ensures b.None? <==> !TruthyText(expiryDate)
    ensures b == Some(Expired) <==> IsExpired(expiryDate, now, parseDate)
    ensures b == Some(ExpiringSoon) <==> IsExpiringSoon(expiryDate, now, parseDate) && !IsExpired(expiryDate, now, parseDate)
  {
    if !TruthyText(expiryDate) then None
    else if IsExpired(expiryDate, now, parseDate) then Some(Expired)
    else if IsExpiringSoon(expiryDate, now, parseDate) then Some(ExpiringSoon)
    else Some(ExpiresOn(expiryDate.value))
  }

  /** The two predicates overlap: a date less than a day in the past is both expired and expiring
    * soon, and the card shows "Expired". */
  lemma ExpiredWinsOverlap(expiryDate: Option<string>, now: int, parseDate: string -> Option<int>)
    requires TruthyText(expiryDate) && parseDate(expiryDate.value).Some?
    requires now - DayMs < parseDate(expiryDate.value).value < now
    ensures IsExpired(expiryDate, now, parseDate) && IsExpiringSoon(expiryDate, now, parseDate)
    ensures BadgeOf(expiryDate, now, parseDate) == Some(Expired)
  {
    ExpiringSoonWindow(expiryDate, now, parseDate);
  }

  // ---------------------------------------------------------------------------
  // The add form

  datatype Form = Form(name: string, quantity: string, unit: string, category: string, expiryDate: string)

  /** The form's initial and reset values. */
  const EmptyForm := Form("", "", "kg", "vegetables", "")

  /** The `name` attributes of the form's inputs. */
  datatype Field = NameField | QuantityField | UnitField | CategoryField | ExpiryDateField

  function GetField(f: Form, n: Field): string {
    match n
    case NameField => f.name
    case QuantityField => f.quantity
    case UnitField => f.unit
    case CategoryField => f.category
    case ExpiryDateField => f.expiryDate
  }

  /** `{ ...formData, [name]: value }`: the named field takes the value, every other field keeps its own. */
  function SetField(f: Form, n: Field, value: string): (r: Form)
    ensures forall m :: GetField(r, m) == if m == n then value else GetField(f, m)
  {
    match n
    case NameField => f.(name := value)
    case QuantityField => f.(quantity := value)
    case UnitField => f.(unit := value)
    case CategoryField => f.(category := value)
    case ExpiryDateField => f.(expiryDate := value)
  }

  /** The form as the route handler receives it: `JSON.stringify(formData)`, every field a string. */
  function BodyOf(f: Form): (b: IngredientsRoute.IngredientBody)
    ensures b.name == Some(f.name) && b.quantity == Text(f.quantity) && b.expiryDate == Some(f.expiryDate)
  {
    IngredientsRoute.IngredientBody(Some(f.name), Text(f.quantity), Some(f.unit), Some(f.category), Some(f.expiryDate))
  }

  /** A form is accepted exactly when its name, quantity, unit and category are filled in; the
    * reset form, with its empty name and quantity, is not. */
  lemma FormAcceptedIffFilled(f: Form)
    ensures IngredientsRoute.Complete(BodyOf(f)) <==> f.name != "" && f.quantity != "" && f.unit != "" && f.category != ""
    ensures !IngredientsRoute.Complete(BodyOf(EmptyForm))
  {
  }

  // ---------------------------------------------------------------------------
  // The local list

  /** `items.filter(ing => ing.id !== id)` */
  function WithoutId(items: seq<Item>, id: string): (r: seq<Item>)
    ensures forall x :: x in r <==> x in items && x.id != id
    ensures |r| <= |items|
  {
    if |items| == 0 then [] else (if items[0].id == id then [] else [items[0]]) + WithoutId(items[1..], id)
  }

  /** Filtering distributes over concatenation, so the kept items keep their order. */
  lemma {:induction false} WithoutIdAppend(a: seq<Item>, b: seq<Item>, id: string)
    ensures WithoutId(a + b, id) == WithoutId(a, id) + WithoutId(b, id)
  {
    if |a| == 0 {
      assert a + b == b;
    } else {
      assert (a + b)[1..] == a[1..] + b;
      WithoutIdAppend(a[1..], b, id);
    }
  }

  /** A list without that id is kept as it is. */
  lemma {:induction false} WithoutIdAbsent(items: seq<Item>, id: string)
    requires forall k :: 0 <= k < |items| ==> items[k].id != id
    ensures WithoutId(items, id) == items
  {
    if |items| > 0 {
      WithoutIdAbsent(items[1..], id);
    }
  }

  class Manager {
    var ingredients: seq<Item>
    var formData: Form
    var loading: bool

    constructor ()
      ensures ingredients == [] && formData == EmptyForm && !loading
    {
      ingredients := [];
      formData := EmptyForm;
      loading := false;
    }

    /** `handleSubmit`: post the form; `respond` is the created ingredient of an ok response, `None`
      * when the response is not ok or the fetch throws. On success the new ingredient goes first,
      * the old list follows unchanged and the form is reset; otherwise both stay as they were. */
    method HandleSubmit(respond: IngredientsRoute.IngredientBody -> Option<Item>)
      modifies this
      ensures var answer := respond(BodyOf(old(formData)));
        && (answer.Some? ==> ingredients == [answer.value] + old(ingredients) && formData == EmptyForm)
        && (answer.None? ==> ingredients == old(ingredients) && formData == old(formData))
      ensures !loading
    {
      loading := true;
      var answer := respond(BodyOf(formData));
      if answer.Some? {
        ingredients := [answer.value] + ingredients;
        formData := EmptyForm;
      }
      loading := false;
    }

    /** `handleDelete`: after an ok response (`ok`) the items with that id leave the list. */
    method HandleDelete(id: string, ok: bool)
      modifies this
      ensures ok ==> ingredients == WithoutId(old(ingredients), id)
      ensures ok ==> forall x :: x in ingredients <==> x in old(ingredients) && x.id != id
      ensures !ok ==> ingredients == old(ingredients)
      ensures formData == old(formData) && loading == old(loading)
    {
      if ok {
        ingredients := WithoutId(ingredients, id);
      }
    }

    /** `handleChange`: only the field the input names takes the new value. */
    method HandleChange(n: Field, value: string)
      modifies this
      ensures GetField(formData, n) == value
      ensures forall m :: m != n ==> GetField(formData, m) == GetField(old(formData), m)
      ensures ingredients == old(ingredients) && loading == old(loading)
    {
      formData := SetField(formData, n, value);
    }
  }
}
