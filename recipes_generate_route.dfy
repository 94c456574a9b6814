/** app/api/recipes/generate/route.ts: `POST /api/recipes/generate`, which asks the model for a
  * recipe and saves it for the caller. */
module RecipesGenerateRoute {
  import opened Common
  import opened Store
  import Claude

  const IngredientsRequired := "At least one ingredient is required"

  /** The request body: `{ ingredients, prepTime, dietaryRestrictions, servings, cuisine }`. */
  datatype GenerateBody = GenerateBody(
    ingredients: Option<seq<string>>,
    prepTime: Option<int>,
    dietaryRestrictions: Option<seq<string>>,
    servings: Option<int>,
    cuisine: Option<string>)

  /** `!ingredients || ingredients.length === 0` fails. */
  predicate HasIngredients(body: GenerateBody) {
    body.ingredients.Some? && |body.ingredients.value| > 0
  }

  /** The parameters handed to the generator, taken from the body as they are. */
  function ParamsOf(body: GenerateBody): (p: Claude.Params)
    requires HasIngredients(body)
    ensures p.ingredients == body.ingredients.value && p.prepTime == body.prepTime && p.servings == body.servings
    ensures p.dietaryRestrictions == body.dietaryRestrictions && p.cuisine == body.cuisine
  {
    Claude.Params(body.ingredients.value, body.prepTime, body.dietaryRestrictions, body.servings, body.cuisine)
  }

  /** The row saved for a generated recipe: every field of the generator's output, the request's
    * ingredient names, the caller as owner. */
  function RowOf(g: Claude.GeneratedRecipe, newId: string, saved: seq<string>, owner: UserId, now: int): (x: Recipe)
    ensures x.id == newId && x.savedIngredients == saved && x.userId == owner && x.createdAt == now
    ensures x.title == g.title && x.description == g.description
    ensures x.ingredients == g.ingredients && x.instructions == g.instructions
    ensures x.prepTime == g.prepTime && x.cookTime == g.cookTime && x.servings == g.servings
    ensures x.difficulty == g.difficulty && x.cuisine == g.cuisine
  {
    Recipe(newId, g.title, g.description, g.ingredients, g.instructions, g.prepTime, g.cookTime, g.servings,
           g.difficulty, g.cuisine, saved, owner, now)
  }

  /** `POST`: `model` is the text-generation service and `parseJson` is `JSON.parse`, as in
    * `Claude.GenerateRecipe`; `newId` and `now` are the id and creation time the store assigns.
    * The row is written only after generation has succeeded. */
  method Post(db: Db, session: Option<UserId>, body: GenerateBody,
              model: string -> Claude.Reply, parseJson: string -> Option<Claude.GeneratedRecipe>,
              newId: string, now: int)
    returns (r: Response<Recipe>)
    requires db.Valid()
    modifies db
    ensures db.Valid()
    ensures Caller(session).None? ==> r == Fail(401, UnauthorizedMessage)
    ensures Caller(session).Some? && !HasIngredients(body) ==> r == Fail(400, IngredientsRequired)
    ensures Caller(session).Some? && HasIngredients(body) && Claude.GenerateRecipe(ParamsOf(body), model, parseJson).Failure?
      ==> r == Fail(500, Claude.GenerationFailed)
    ensures Caller(session).Some? && HasIngredients(body) && (session.value !in old(db.users) || RecipeIdUsed(old(db.recipes), newId))
      ==> r == Fail(500, Claude.GenerationFailed)
    ensures r.Fail? ==> unchanged(db)
    ensures r.Ok? <==>
      && Caller(session).Some? && HasIngredients(body)
      && Claude.GenerateRecipe(ParamsOf(body), model, parseJson).Success?
      && session.value in old(db.users) && !RecipeIdUsed(old(db.recipes), newId)
    ensures r.Ok? ==>
      && Caller(session).Some? && HasIngredients(body)
      && Claude.GenerateRecipe(ParamsOf(body), model, parseJson).Success?
      && r.body == RowOf(Claude.GenerateRecipe(ParamsOf(body), model, parseJson).value, newId,
                         body.ingredients.value, session.value, now)
      && db.recipes == old(db.recipes) + [r.body]
      && db.users == old(db.users) && db.households == old(db.households)
      && db.ingredients == old(db.ingredients) && db.foodWaste == old(db.foodWaste)
  {
    var caller := Caller(session);
    if caller.None? {
      return Fail(401, UnauthorizedMessage);
    }
    var uid := caller.value;
    if !HasIngredients(body) {
      return Fail(400, IngredientsRequired);
    }
    var generated := Claude.GenerateRecipe(ParamsOf(body), model, parseJson);
    if generated.Failure? {
      return Fail(500, generated.error);
    }
    if uid !in db.users || RecipeIdUsed(db.recipes, newId) {
      return Fail(500, Claude.GenerationFailed);
    }
    var row := RowOf(generated.value, newId, body.ingredients.value, uid, now);
    db.recipes := db.recipes + [row];
    r := Ok(row);
  }
}
