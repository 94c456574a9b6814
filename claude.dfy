/** lib/claude.ts: the recipe prompt, the text-generation call (a parameter) and the
  * adapter that turns its free-form reply into a recipe. */
module Claude {
  import opened Common

  /** One entry of the recipe's ingredient list, as the prompt's JSON schema asks for it. */
  datatype RecipeItem = RecipeItem(name: string, quantity: string, unit: string)

  /** The object the model is asked to return. */
  datatype GeneratedRecipe = GeneratedRecipe(
    title: string,
    description: string,
    ingredients: seq<RecipeItem>,
    instructions: seq<string>,
    prepTime: int,
    cookTime: int,
    servings: int,
    difficulty: string,
    cuisine: string)

  /** `RecipeGenerationParams`; `None` is a property left `undefined`. */
  datatype Params = Params(
    ingredients: seq<string>,
    prepTime: Option<int>,
    dietaryRestrictions: Option<seq<string>>,
    servings: Option<int>,
    cuisine: Option<string>)

  /** The parameters once the destructuring defaults are applied. */
  datatype Settings = Settings(
    ingredients: seq<string>,
    prepTime: int,
    dietaryRestrictions: seq<string>,
    servings: int,
    cuisine: Option<string>)

  /** One content block of the model's reply. */
  datatype Block = TextBlock(text: string) | OtherBlock

  /** What the model service gives back: a transport failure, or the reply's content blocks. */
  datatype Reply = TransportError | Replied(content: seq<Block>)

  const DefaultPrepTime := 30
  const DefaultServings := 4
  const GenerationFailed := "Failed to generate recipe"

  function WithDefaults(p: Params): (s: Settings)
    ensures s.ingredients == p.ingredients && s.cuisine == p.cuisine
    ensures s.prepTime == (if p.prepTime.Some? then p.prepTime.value else 30)
    ensures s.servings == (if p.servings.Some? then p.servings.value else 4)
    ensures s.dietaryRestrictions == (if p.dietaryRestrictions.Some? then p.dietaryRestrictions.value else [])
  {
    Settings(
      p.ingredients,
      match p.prepTime case Some(t) => t case None => DefaultPrepTime,
      match p.dietaryRestrictions case Some(d) => d case None => [],
      match p.servings case Some(n) => n case None => DefaultServings,
      p.cuisine)
  }

  // ---------------------------------------------------------------------------
  // The prompt

  const DietaryPrefix := "Dietary restrictions: "
  const NoDietary := "No dietary restrictions"
  const CuisinePrefix := "Cuisine style: "
  const AnyCuisine := "Any cuisine style"

  function DietaryLine(d: seq<string>): (r: string)
    ensures |d| > 0 ==> r == DietaryPrefix + Join(d, ", ")
    ensures |d| == 0 ==> r == NoDietary
    ensures StartsWith(r, DietaryPrefix) <==> |d| > 0
  {
    if |d| > 0 then DietaryPrefix + Join(d, ", ")
    else assert NoDietary[0] != DietaryPrefix[0]; NoDietary
  }

  function CuisineLine(c: Option<string>): (r: string)
    ensures TruthyText(c) ==> r == CuisinePrefix + c.value
    ensures !TruthyText(c) ==> r == AnyCuisine
    ensures StartsWith(r, CuisinePrefix) <==> TruthyText(c)
  {
    if TruthyText(c) then CuisinePrefix + c.value
    else assert AnyCuisine[0] != CuisinePrefix[0]; AnyCuisine
  }

  const Intro := "You are a creative chef helping to reduce food waste. Create a delicious recipe using these ingredients: "

  /** The fixed request for the JSON shape, from the blank line after the requirements to the end. */
  const FormatRequest :=
    "\n\nPlease provide the recipe in the following JSON format:\n{\n" +
    "  \"title\": \"Creative recipe name\",\n" +
    "  \"description\": \"Brief description of the dish\",\n" +
    "  \"ingredients\": [\n    {\n" +
    "      \"name\": \"ingredient name\",\n" +
    "      \"quantity\": \"amount\",\n" +
    "      \"unit\": \"measurement unit\"\n" +
    "    }\n  ],\n" +
    "  \"instructions\": [\n    \"Step 1\",\n    \"Step 2\",\n    ...\n  ],\n" +
    "  \"prepTime\": number in minutes,\n" +
    "  \"cookTime\": number in minutes,\n" +
    "  \"servings\": number of servings,\n" +
    "  \"difficulty\": \"Easy/Medium/Hard\",\n" +
    "  \"cuisine\": \"cuisine type\"\n}\n\n" +
    "Be creative with the recipe name and make it appealing! Focus on minimizing waste and using all provided ingredients effectively."

  function PrepLine(s: Settings): string {
    "- Preparation time: approximately " + IntToString(s.prepTime) + " minutes"
  }

  function ServingsLine(s: Settings): string {
    "- Servings: " + IntToString(s.servings)
  }

  /** The pieces of the prompt's template literal, in order. */
  function PromptParts(s: Settings): seq<string> {
    [ Intro, Join(s.ingredients, ", "), ".\n\nRequirements:\n",
      PrepLine(s), "\n", ServingsLine(s), "\n",
      "- " + DietaryLine(s.dietaryRestrictions), "\n",
      "- " + CuisineLine(s.cuisine),
      FormatRequest ]
  }

  /** The prompt opens with the instruction and the ingredient list and closes with the request
    * for the JSON shape. */
  function Prompt(s: Settings): (p: string)
    ensures StartsWith(p, Intro + Join(s.ingredients, ", "))
    ensures EndsWith(p, FormatRequest)
  {
    var parts := PromptParts(s);
    ConcatPrefix(parts, 2);
    ConcatLast(parts);
    assert parts[..2] == [Intro] + [Join(s.ingredients, ", ")];
    ConcatCons(Intro, [Join(s.ingredients, ", ")]);
    ConcatCons(Join(s.ingredients, ", "), []);
    assert [Join(s.ingredients, ", ")] + [] == [Join(s.ingredients, ", ")];
    Concat(parts)
  }

  /** The prompt names every ingredient in one comma-separated list in the given order, the
    * preparation time, the servings, and one dietary and one cuisine line. */
  lemma PromptMentions(s: Settings)
    ensures IsSubstring(Join(s.ingredients, ", "), Prompt(s))
    ensures forall k :: 0 <= k < |s.ingredients| ==> IsSubstring(s.ingredients[k], Prompt(s))
    ensures IsSubstring(PrepLine(s), Prompt(s))
    ensures IsSubstring(ServingsLine(s), Prompt(s))
    ensures IsSubstring("- " + DietaryLine(s.dietaryRestrictions), Prompt(s))
    ensures IsSubstring("- " + CuisineLine(s.cuisine), Prompt(s))
  {
    var parts := PromptParts(s);
    ConcatContains(parts, 1);
    ConcatContains(parts, 3);
    ConcatContains(parts, 5);
    ConcatContains(parts, 7);
    ConcatContains(parts, 9);
    forall k | 0 <= k < |s.ingredients| ensures IsSubstring(s.ingredients[k], Prompt(s)) {
      JoinContains(s.ingredients, ", ", k);
      SubstringTransitive(s.ingredients[k], parts[1], Prompt(s));
    }
  }

  // ---------------------------------------------------------------------------
  // Extracting the JSON object from the reply: `text.match(/\{[\s\S]*\}/)`

  /** The index of the first occurrence of `c`. */
  function FirstIndex(s: string, c: char): (r: Option<nat>)
    ensures r.Some? ==> r.value < |s| && s[r.value] == c
    ensures r.Some? ==> forall k :: 0 <= k < r.value ==> s[k] != c
    ensures r.None? ==> forall k :: 0 <= k < |s| ==> s[k] != c
  {
    if |s| == 0 then None
    else if s[0] == c then Some(0)
    else match FirstIndex(s[1..], c)
      case None => None
      case Some(i) => Some(i + 1)
  }

  /** The index of the last occurrence of `c`. */
  function LastIndex(s: string, c: char): (r: Option<nat>)
    ensures r.Some? ==> r.value < |s| && s[r.value] == c
    ensures r.Some? ==> forall k :: r.value < k < |s| ==> s[k] != c
    ensures r.None? ==> forall k :: 0 <= k < |s| ==> s[k] != c
  {
    if |s| == 0 then None
    else if s[|s| - 1] == c then Some(|s| - 1)
    else LastIndex(s[..|s| - 1], c)
  }

  /** `text[i..j]` inclusive is the regex's match: `i` is the first '{', `j` the last '}', `i < j`. */
  ghost predicate GreedyMatch(text: string, i: int, j: int) {
    && 0 <= i < j < |text|
    && text[i] == '{' && text[j] == '}'
    && (forall k :: 0 <= k < i ==> text[k] != '{')
    && (forall k :: j < k < |text| ==> text[k] != '}')
  }

  ghost predicate HasBracePair(text: string) {
    exists i, j :: 0 <= i < j < |text| && text[i] == '{' && text[j] == '}'
  }

  /** The match is found iff some '{' comes before some '}'; it then runs from the first '{'
    * through the last '}', so it starts with '{', ends with '}' and lies inside the text. */
  function ExtractJson(text: string): (r: Option<string>)
    ensures r.Some? <==> HasBracePair(text)
    ensures r.Some? ==> exists i, j :: GreedyMatch(text, i, j) && r.value == text[i..j + 1]
    ensures r.Some? ==> |r.value| >= 2 && r.value[0] == '{' && r.value[|r.value| - 1] == '}'
    ensures r.Some? ==> IsSubstring(r.value, text)
  {
    match FirstIndex(text, '{')
    case None => None
    case Some(i) =>
      match LastIndex(text, '}')
      case None => None
      case Some(j) =>
        if i < j then
          assert GreedyMatch(text, i, j);
          assert OccursAt(text[i..j + 1], text, i);
          Some(text[i..j + 1])
        else
          None
  }

  /** `generateRecipe`: prompt the model once, take the first content block, extract and parse
    * its JSON; every failure on the way ends in the one error "Failed to generate recipe". */
  function GenerateRecipe(p: Params, model: string -> Reply, parseJson: string -> Option<GeneratedRecipe>)
    : (r: Result<GeneratedRecipe>)
    ensures r.Failure? ==> r.error == GenerationFailed
    ensures r.Success? <==>
      var reply := model(Prompt(WithDefaults(p)));
      && reply.Replied? && |reply.content| > 0 && reply.content[0].TextBlock?
      && ExtractJson(reply.content[0].text).Some?
      && parseJson(ExtractJson(reply.content[0].text).value).Some?
    ensures r.Success? ==> r.value == parseJson(ExtractJson(model(Prompt(WithDefaults(p))).content[0].text).value).value
  {
    match model(Prompt(WithDefaults(p)))
    case TransportError => Failure(GenerationFailed)
    case Replied(content) =>
      if |content| == 0 || !content[0].TextBlock? then Failure(GenerationFailed)
      else match ExtractJson(content[0].text)
        case None => Failure(GenerationFailed)
        case Some(json) =>
          match parseJson(json)
          case None => Failure(GenerationFailed)
          case Some(recipe) => Success(recipe)
  }

  /** A reply whose text has no '{' before a '}' yields no recipe, whatever the parser does. */
  lemma NoBracesNoRecipe(p: Params, model: string -> Reply, parseJson: string -> Option<GeneratedRecipe>, text: string)
    requires model(Prompt(WithDefaults(p))).Replied?
    requires |model(Prompt(WithDefaults(p))).content| > 0 && model(Prompt(WithDefaults(p))).content[0] == TextBlock(text)
    requires forall i, j :: 0 <= i < j < |text| && text[i] == '{' ==> text[j] != '}'
    ensures GenerateRecipe(p, model, parseJson) == Failure(GenerationFailed)
  {
  }
}
