/** components/RecipeGenerator.tsx: the selection toggles, the request the component sends, and
  * the text file it offers for download. */
module RecipeGenerator {
  import opened Common
  import Store
  import Claude
  import RecipesGenerateRoute

  // ---------------------------------------------------------------------------
  // Selection toggles

  /** `s.filter(y => y !== x)` */
  function RemoveAll(s: seq<string>, x: string): (r: seq<string>)
    ensures forall y :: y in r <==> y in s && y != x
    ensures |r| <= |s|
  {
    if |s| == 0 then [] else (if s[0] == x then [] else [s[0]]) + RemoveAll(s[1..], x)
  }

  /** Filtering distributes over concatenation, so the kept entries keep their order. */
  lemma {:induction false} RemoveAllAppend(a: seq<string>, b: seq<string>, x: string)
    ensures RemoveAll(a + b, x) == RemoveAll(a, x) + RemoveAll(b, x)
  {
    if |a| == 0 {
      assert a + b == b;
    } else {
      assert (a + b)[1..] == a[1..] + b;
      RemoveAllAppend(a[1..], b, x);
    }
  }

  /** Filtering out a value that does not occur changes nothing. */
  lemma {:induction false} RemoveAllAbsent(s: seq<string>, x: string)
    requires x !in s
    ensures RemoveAll(s, x) == s
  {
    if |s| > 0 {
      assert x !in s[1..];
      RemoveAllAbsent(s[1..], x);
    }
  }

  predicate Distinct(s: seq<string>) {
    forall i, j :: 0 <= i < j < |s| ==> s[i] != s[j]
  }

  lemma {:induction false} RemoveAllDistinct(s: seq<string>, x: string)
    requires Distinct(s)
    ensures Distinct(RemoveAll(s, x))
  {
    if |s| > 0 {
      assert Distinct(s[1..]);
      RemoveAllDistinct(s[1..], x);
      assert s[0] !in s[1..];
    }
  }

  /** `prev.includes(name) ? prev.filter(n => n !== name) : [...prev, name]`, the update both
    * `handleIngredientToggle` and `handleDietaryToggle` apply. */
  function Toggle(prev: seq<string>, name: string): (r: seq<string>)
    ensures name in prev ==> name !in r && forall y :: y != name ==> (y in r <==> y in prev)
    ensures name !in prev ==> r == prev + [name]
  {
    if name in prev then RemoveAll(prev, name) else prev + [name]
  }

  /** Selecting a name and then deselecting it restores the selection. */
  lemma ToggleTwice(prev: seq<string>, name: string)
    requires name !in prev
    ensures Toggle(Toggle(prev, name), name) == prev
  {
    RemoveAllAppend(prev, [name], name);
    RemoveAllAbsent(prev, name);
  }

  /** A selection without repeats stays without repeats. */
  lemma ToggleKeepsDistinct(prev: seq<string>, name: string)
    requires Distinct(prev)
    ensures Distinct(Toggle(prev, name))
  {
    if name in prev {
      RemoveAllDistinct(prev, name);
    }
  }

  // ---------------------------------------------------------------------------
  // The download

  /** `\s` of a JavaScript regular expression. */
  predicate IsSpace(c: char) {
    || c == ' ' || c == '\t' || c == '\n' || c == '\r' || c == '\U{000B}' || c == '\U{000C}'
    || c == '\U{00A0}' || c == '\U{1680}' || ('\U{2000}' <= c <= '\U{200A}')
    || c == '\U{2028}' || c == '\U{2029}' || c == '\U{202F}' || c == '\U{205F}'
    || c == '\U{3000}' || c == '\U{FEFF}'
  }

  predicate NoSpace(s: string) {
    forall i :: 0 <= i < |s| ==> !IsSpace(s[i])
  }

  /** `s` with its leading whitespace removed. */
  function DropSpaces(s: string): (r: string)
    ensures |r| <= |s|
    ensures |r| > 0 ==> !IsSpace(r[0])
    ensures r == s[|s| - |r|..]
  {
    if |s| > 0 && IsSpace(s[0]) then DropSpaces(s[1..]) else s
  }

  /** `s.replace(/\s+/g, '_')`: each maximal run of whitespace becomes one '_'. */
  function Underscored(s: string): (r: string)
    ensures NoSpace(r)
    ensures |r| <= |s|
    decreases |s|
  {
    if |s| == 0 then ""
    else if IsSpace(s[0]) then "_" + Underscored(DropSpaces(s[1..]))
    else [s[0]] + Underscored(s[1..])
  }

  /** A title without whitespace is kept as it is. */
  lemma {:induction false} UnderscoredNoSpace(s: string)
    requires NoSpace(s)
    ensures Underscored(s) == s
  {
    if |s| > 0 {
      assert NoSpace(s[1..]);
      UnderscoredNoSpace(s[1..]);
    }
  }

  lemma {:induction false} DropSpacesRun(w: string, b: string)
    requires NoSpace(b[..if |b| > 0 then 1 else 0]) && forall i :: 0 <= i < |w| ==> IsSpace(w[i])
    ensures DropSpaces(w + b) == b
  {
    if |w| > 0 {
      assert (w + b)[1..] == w[1..] + b;
      DropSpacesRun(w[1..], b);
    } else {
      assert w + b == b;
    }
  }

  /** A whitespace run between a word and text that does not start with whitespace becomes one
    * '_': the run is replaced as a whole. */
  lemma {:induction false} UnderscoredRun(a: string, w: string, b: string)
    requires NoSpace(a)
    requires |w| > 0 && forall i :: 0 <= i < |w| ==> IsSpace(w[i])
    requires NoSpace(b[..if |b| > 0 then 1 else 0])
    ensures Underscored(a + w + b) == a + "_" + Underscored(b)
  {
    if |a| == 0 {
      assert a + w + b == w + b;
      assert (w + b)[1..] == w[1..] + b;
      DropSpacesRun(w[1..], b);
    } else {
      assert (a + w + b)[1..] == a[1..] + w + b;
      assert NoSpace(a[1..]);
      UnderscoredRun(a[1..], w, b);
    }
  }

  /** The name the file is saved under. */
  function FileName(title: string): (r: string)
    ensures NoSpace(r)
    ensures |r| >= 4 && r[|r| - 4..] == ".txt"
  {
    Underscored(title) + ".txt"
  }

  /** `recipe.instructions.map((inst, i) => `${i + 1}. ${inst}`)` */
  function NumberedSteps(steps: seq<string>): (r: seq<string>)
    ensures |r| == |steps|
    ensures forall k :: 0 <= k < |r| ==> r[k] == NatToString(k + 1) + ". " + steps[k]
  {
    seq(|steps|, k requires 0 <= k < |steps| => NatToString(k + 1) + ". " + steps[k])
  }

  /** `- ${ing.quantity} ${ing.unit} ${ing.name}` for each ingredient. */
  function IngredientLines(items: seq<Claude.RecipeItem>): (r: seq<string>)
    ensures |r| == |items|
    ensures forall k :: 0 <= k < |r| ==> r[k] == "- " + items[k].quantity + " " + items[k].unit + " " + items[k].name
  {
    seq(|items|, k requires 0 <= k < |items| => "- " + items[k].quantity + " " + items[k].unit + " " + items[k].name)
  }

  /** The pieces of the file's template literal, in order; it opens with a line break and closes
    * with a line break and the four spaces of indentation before the closing backquote. */
  function DownloadParts(x: Store.Recipe): seq<string> {
    [ "\n", x.title, "\n", x.description,
      "\n\nPrep Time: ", IntToString(x.prepTime), " minutes\nCook Time: ", IntToString(x.cookTime),
      " minutes\nServings: ", IntToString(x.servings), "\nDifficulty: ", x.difficulty,
      "\nCuisine: ", x.cuisine,
      "\n\nIngredients:\n", Join(IngredientLines(x.ingredients), "\n"),
      "\n\nInstructions:\n", Join(NumberedSteps(x.instructions), "\n"),
      "\n    " ]
  }

  /** The file opens with the title and the description on lines of their own and closes with
    * the template's trailing indentation. */
  function DownloadText(x: Store.Recipe): (t: string)
    ensures StartsWith(t, "\n" + x.title + "\n" + x.description)
    ensures EndsWith(t, "\n    ")
  {
    var parts := DownloadParts(x);
    ConcatPrefix(parts, 4);
    ConcatLast(parts);
    assert parts[..4] == ["\n"] + ([x.title] + (["\n"] + ([x.description] + [])));
    ConcatCons("\n", [x.title] + (["\n"] + ([x.description] + [])));
    ConcatCons(x.title, ["\n"] + ([x.description] + []));
    ConcatCons("\n", [x.description] + []);
    ConcatCons(x.description, []);
    Concat(parts)
  }

  /** The file holds the title, each ingredient line, and each instruction numbered from 1 in order. */
  lemma DownloadMentions(x: Store.Recipe)
    ensures IsSubstring(x.title, DownloadText(x))
    ensures forall k :: 0 <= k < |x.ingredients| ==> IsSubstring(IngredientLines(x.ingredients)[k], DownloadText(x))
    ensures IsSubstring(Join(NumberedSteps(x.instructions), "\n"), DownloadText(x))
    ensures forall k :: 0 <= k < |x.instructions| ==>
      IsSubstring(NatToString(k + 1) + ". " + x.instructions[k], DownloadText(x))
  {
    var parts := DownloadParts(x);
    ConcatContains(parts, 1);
    ConcatContains(parts, 15);
    ConcatContains(parts, 17);
    forall k | 0 <= k < |x.ingredients| ensures IsSubstring(IngredientLines(x.ingredients)[k], DownloadText(x)) {
      JoinContains(IngredientLines(x.ingredients), "\n", k);
      SubstringTransitive(IngredientLines(x.ingredients)[k], parts[15], DownloadText(x));
    }
    forall k | 0 <= k < |x.instructions|
      ensures IsSubstring(NatToString(k + 1) + ". " + x.instructions[k], DownloadText(x))
    {
      JoinContains(NumberedSteps(x.instructions), "\n", k);
      SubstringTransitive(NumberedSteps(x.instructions)[k], parts[17], DownloadText(x));
    }
  }

  datatype TextFile = TextFile(name: string, content: string)

  // ---------------------------------------------------------------------------
  // The component's state

  /** The JSON body `generateRecipe` posts. */
  datatype Request = Request(
    ingredients: seq<string>,
    prepTime: int,
    servings: int,
    dietaryRestrictions: seq<string>,
    cuisine: string)

  /** The request as the route handler receives it: every field present. */
  function BodyOf(q: Request): (b: RecipesGenerateRoute.GenerateBody)
    ensures b.ingredients == Some(q.ingredients) && b.cuisine == Some(q.cuisine)
  {
    RecipesGenerateRoute.GenerateBody(Some(q.ingredients), Some(q.prepTime), Some(q.dietaryRestrictions),
                                      Some(q.servings), Some(q.cuisine))
  }

  class Generator {
    var selectedIngredients: seq<string>
    var prepTime: string
    var servings: string
    var dietaryRestrictions: seq<string>
    var cuisine: string
    var recipe: Option<Store.Recipe>
    var loading: bool

    /** The initial state: nothing selected, 30 minutes, 4 servings, no cuisine, no recipe. */
    constructor ()
      ensures selectedIngredients == [] && dietaryRestrictions == []
      ensures prepTime == "30" && servings == "4" && cuisine == ""
      ensures recipe == None && !loading
    {
      selectedIngredients := [];
      prepTime := "30";
      servings := "4";
      dietaryRestrictions := [];
      cuisine := "";
      recipe := None;
      loading := false;
    }

    method HandleIngredientToggle(name: string)
      modifies this
      ensures selectedIngredients == Toggle(old(selectedIngredients), name)
      ensures Distinct(old(selectedIngredients)) ==> Distinct(selectedIngredients)
      ensures dietaryRestrictions == old(dietaryRestrictions) && recipe == old(recipe) && loading == old(loading)
      ensures prepTime == old(prepTime) && servings == old(servings) && cuisine == old(cuisine)
    {
      if Distinct(selectedIngredients) {
        ToggleKeepsDistinct(selectedIngredients, name);
      }
      selectedIngredients := Toggle(selectedIngredients, name);
    }

    method HandleDietaryToggle(restriction: string)
      modifies this
      ensures dietaryRestrictions == Toggle(old(dietaryRestrictions), restriction)
      ensures Distinct(old(dietaryRestrictions)) ==> Distinct(dietaryRestrictions)
      ensures selectedIngredients == old(selectedIngredients) && recipe == old(recipe) && loading == old(loading)
      ensures prepTime == old(prepTime) && servings == old(servings) && cuisine == old(cuisine)
    {
      if Distinct(dietaryRestrictions) {
        ToggleKeepsDistinct(dietaryRestrictions, restriction);
      }
      dietaryRestrictions := Toggle(dietaryRestrictions, restriction);
    }

    /** The body posted for the current settings; `parseInt` reads the two number inputs. */
    function BuildRequest(parseInt: string -> int): (q: Request)
      reads this
      ensures q.ingredients == selectedIngredients && q.dietaryRestrictions == dietaryRestrictions
      ensures q.prepTime == parseInt(prepTime) && q.servings == parseInt(servings) && q.cuisine == cuisine
    {
      Request(selectedIngredients, parseInt(prepTime), parseInt(servings), dietaryRestrictions, cuisine)
    }

    /** `generateRecipe`: with nothing selected, alert and send nothing. Otherwise post the request;
      * `respond` is the server's answer, `None` when the response is not ok or the fetch throws,
      * and a recipe in the answer replaces the shown one. `sent` is the request posted, if any. */
    method GenerateRecipe(parseInt: string -> int, respond: Request -> Option<Store.Recipe>)
      returns (sent: Option<Request>)
      modifies this
      ensures |old(selectedIngredients)| == 0 ==> sent == None && unchanged(this)
      ensures |old(selectedIngredients)| > 0 ==>
        && sent == Some(old(BuildRequest(parseInt)))
        && RecipesGenerateRoute.HasIngredients(BodyOf(sent.value))
        && recipe == (if respond(sent.value).Some? then respond(sent.value) else old(recipe))
        && !loading
        && selectedIngredients == old(selectedIngredients) && dietaryRestrictions == old(dietaryRestrictions)
        && prepTime == old(prepTime) && servings == old(servings) && cuisine == old(cuisine)
    {
      if |selectedIngredients| == 0 {
        return None;
      }
      loading := true;
      var q := BuildRequest(parseInt);
      var answer := respond(q);
      if answer.Some? {
        recipe := answer;
      }
      loading := false;
      sent := Some(q);
    }

    /** `downloadPDF`: nothing without a recipe; otherwise the text file named after its title. */
    function Download(): (f: Option<TextFile>)
      reads this
      ensures f.None? <==> recipe.None?
      ensures f.Some? ==> f.value.content == DownloadText(recipe.value) && NoSpace(f.value.name)
      ensures f.Some? ==> f.value.name == FileName(recipe.value.title)
    {
      match recipe
      case None => None
      case Some(x) => Some(TextFile(FileName(x.title), DownloadText(x)))
    }
  }
}
