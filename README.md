# Recipe generator: a verified model of its request handling

The recipe generator is a Next.js application. Its users:

- record the ingredients they have;
- form households whose members see each other's ingredients;
- log the food they throw away;
- ask a language model for a recipe that uses a chosen set of ingredients.

This project models its deterministic core in Dafny and proves the core's properties.

- **`Middleware`**: the authorisation callback. A path is open, or it needs a session token.
- **`Claude`**: the recipe service:
  - the parameter defaults;
  - the prompt text;
  - the greedy `{…}` extraction from the model's reply;
  - collapsing every failure into one error.
- **Route handlers**: one module per API route:
  - `HouseholdCreate`, `HouseholdJoin`, `HouseholdRoute`;
  - `IngredientsRoute`, `FoodWasteRoute`, `RecipesGenerateRoute`.

  Each works on the store, `Store.Db`. That is a class with one field per table: users, households, ingredients, waste records and recipes. Rows point to each other by foreign-key fields.
  - `Db.Valid()` collects two kinds of facts about the store:
    - constraints the database itself enforces: household references resolve, join codes are unique, every row's id is unique and its owner exists;
    - invariants that the modelled handlers keep but the database does not enforce: every join code is upper case, every household has a member.
  - Each mutating handler is a `method` that keeps `Valid()`. Its contract gives, in order:
    1. the result of every check;
    2. success exactly when every check passes;
    3. "no change on failure";
    4. the whole new state on success.
  - The read-only `GET` handlers are functions of the store.
- **`RecipeGenerator` and `IngredientManager`**: the two client components.
  - Their state is held in the classes `Generator` and `Manager`.
  - The list and string helpers they use are pure functions: selection toggles, the download text and file name, the expiry predicates and the list filters.
- **`Common` and `Sorting`**: the JavaScript behaviour the rest relies on:
  - truthiness;
  - `join`, `startsWith`, `toUpperCase`;
  - integer rendering in template literals;
  - the store's newest-first ordering.

Some inputs are outside the program's own logic. These appear as parameters:

| input | parameter |
|---|---|
| the session | `session: Option<UserId>` |
| generated ids | `newId` |
| the `nanoid` output | `generated` |
| the clock | `now`, in milliseconds |
| the language model | `model: string -> Reply` |
| `JSON.parse` | `parseJson` |
| `parseFloat` on strings | `parseText` |
| `new Date(s)` | `parseDate` |
| `parseInt` | `parseInt` |
| the server's answers to the client components | `respond` and `ok` |

Each handler is one atomic step. The store errors that Prisma would raise are modelled explicitly, and each leads to the handler's 500 response with the store unchanged:

- a missing user behind a foreign key;
- a taken primary key or join code;
- a delete that matches no row.

## Model

| member | source | states |
|---|---|---|
| Middleware.Authorized | middleware.ts:10-25 | with a token every path is authorised; without one a path is authorised iff it starts with none of the five protected prefixes |
| Middleware.ProtectedIsNotPublic | middleware.ts:13-20 | no path with a protected prefix starts with "/auth" or equals "/", so the early `return true` lines never open a protected path |
| Middleware.PublicPaths | middleware.ts:13-14 | paths starting with "/auth", and "/" itself, are authorised with or without a token |
| Middleware.RawPrefixMatching | middleware.ts:13-20 | matching is by raw prefix: "/dashboardX" needs a token, "/authors" does not |
| Claude.WithDefaults | lib/claude.ts:16 | omitted prepTime, servings and dietaryRestrictions become 30, 4 and []; ingredients and cuisine pass through |
| Claude.DietaryLine | lib/claude.ts:23 | the line starts with "Dietary restrictions: " iff the list is non-empty, and is then the names joined by ", "; otherwise it is "No dietary restrictions" |
| Claude.CuisineLine | lib/claude.ts:24 | the line starts with "Cuisine style: " iff the cuisine is a non-empty string; otherwise it is "Any cuisine style" |
| Claude.Prompt | lib/claude.ts:18-49 | the prompt opens with the chef instruction followed by the comma-joined ingredients and ends with the request for the JSON shape |
| Claude.PromptMentions | lib/claude.ts:18-49 | the prompt contains the comma-joined ingredient list, every single ingredient, the preparation-time and servings lines and the dietary and cuisine lines |
| Claude.FirstIndex | lib/claude.ts:66 | the result is the first position of the character, or none when it does not occur |
| Claude.LastIndex | lib/claude.ts:66 | the result is the last position of the character, or none when it does not occur |
| Claude.ExtractJson | lib/claude.ts:66-68 | a match exists iff some '{' comes before some '}'; it is the slice from the first '{' through the last '}', starts with '{', ends with '}' and is a substring of the reply |
| Claude.GenerateRecipe | lib/claude.ts:51-76 | success iff the reply arrived, its first block is text, the extraction matched and the parser accepted the match; the value is the parsed object; every failure is the single error "Failed to generate recipe" |
| Claude.NoBracesNoRecipe | lib/claude.ts:64-72 | a reply whose first block is text with no '{' before a '}', whatever blocks follow, yields the generation error whatever the parser does |
| Common.ParseFloat | app/api/ingredients/route.ts:89 | `parseFloat` of a number is that number, and of a string is the decimal parser applied to it; the same call is made at app/api/food-waste/route.ts:71 and app/api/household/create/route.ts:43 |
| Common.Join | lib/claude.ts:18 | joining nothing gives "" and joining one name gives that name |
| Common.JoinAppend | lib/claude.ts:18 | joining keeps the order: an appended name comes after one more separator |
| Common.JoinContains | lib/claude.ts:18 | every name occurs whole in the joined text |
| Common.IntToString | lib/claude.ts:21-22 | `${n}` of an integer: the decimal digits of a non-negative number, a minus sign before those of a negative one |
| Common.NatToString | lib/claude.ts:21-22 | the rendering is non-empty, all digits and without leading zero |
| Common.NatToStringRoundTrip | lib/claude.ts:21-22 | reading the rendered digits back gives the number |
| Common.IntToStringInjective | lib/claude.ts:21-22 | different numbers render differently |
| Common.ToUpper | app/api/household/create/route.ts:37 | upper-casing keeps the length and maps each character to its capital |
| Common.UpperHasNoLower | app/api/household/create/route.ts:37 | an upper-cased string has no lower-case letter, and a string without one is its own upper case |
| Common.ToUpperIdempotent | app/api/household/join/route.ts:37 | upper-casing twice is upper-casing once |
| Sorting.InsertDesc | app/api/ingredients/route.ts:39 | inserting into a newest-first sequence keeps it newest first and adds exactly the one entry |
| Sorting.SortDesc | app/api/ingredients/route.ts:39 | `orderBy: desc`: the result is newest first and a permutation of the input |
| Sorting.SortDescMembers | app/api/ingredients/route.ts:54 | sorting keeps exactly the entries it is given |
| Store.Caller | app/api/household/create/route.ts:11-13 | a caller exists iff `session?.user?.id` is truthy, and is that id |
| Store.MembersOf | app/api/household/route.ts:19-25 | the members are exactly the users whose householdId is the household, each reduced to id, name and email |
| Store.ViewOf | app/api/household/create/route.ts:48-56 | the returned household carries its id and its members as `MembersOf` defines them |
| Store.JoiningAddsMember | app/api/household/join/route.ts:47-65 | after a user without a household joins, the household's members are exactly the previous members plus that user |
| Store.JoiningKeepsHouseholdsInhabited | app/api/household/join/route.ts:47-52 | a user without a household who joins an existing or a new household leaves no household without members |
| HouseholdCreate.WasteGoal | app/api/household/create/route.ts:43 | the goal is the parsed value when the field is truthy and 10 otherwise, including a missing field, "" and 0 |
| HouseholdCreate.JoinCodeFrom | app/api/household/create/route.ts:37 | the join code has the generated length and no lower-case letter |
| HouseholdCreate.Post | app/api/household/create/route.ts:11-66 | succeeds iff every check passes; checks in order: 401, 400 name, 400 already a member, 500 when the store rejects the insert (missing user, taken id or join code); no change on any failure; on success exactly one household is added with the upper-cased code and the goal, only the caller's householdId changes, and the caller is the only member returned |
| HouseholdJoin.HouseholdWithCode | app/api/household/join/route.ts:36-38 | the looked-up household is stored and has that join code |
| HouseholdJoin.JoinCodeCaseInsensitive | app/api/household/join/route.ts:37 | any case variant of a stored code finds that household and no other |
| HouseholdJoin.LowerCaseCodeFindsHousehold | app/api/household/join/route.ts:36-38 | a request with "ab12cd34" finds the household whose code is "AB12CD34" |
| HouseholdJoin.Post | app/api/household/join/route.ts:10-74 | succeeds iff every check passes; checks in order: 401, 400 code, 400 already a member, 404 unknown upper-cased code, 500 when the caller is not a stored user; no change on failure; on success only the caller's householdId changes, to the found household, and the members returned are the previous members plus the caller |
| HouseholdRoute.Get | app/api/household/route.ts:10-35 | 401 iff there is no caller; `null` iff the caller has no household; otherwise the caller's household with exactly the users of that household, each as id, name and email |
| IngredientsRoute.Visible | app/api/ingredients/route.ts:22-55 | each row is kept, as often as it occurs, iff the caller may see it |
| IngredientsRoute.Listing | app/api/ingredients/route.ts:22-56 | the selected rows are newest first, are exactly the visible stored rows, and occur as often as in the table |
| IngredientsRoute.Annotate | app/api/ingredients/route.ts:30-38 | each row comes with its owner's id, name and email, in the same order |
| IngredientsRoute.ListingOwnersExist | app/api/ingredients/route.ts:30-38 | every listed row's owner is a stored user |
| IngredientsRoute.ListedRows | app/api/ingredients/route.ts:22-58 | the response lists only stored visible rows, each with its owner, every visible row at least once, newest first |
| IngredientsRoute.Get | app/api/ingredients/route.ts:6-66 | 401 iff there is no caller; otherwise only stored rows visible to the caller, each visible row, each with its owner, ordered by createdAt descending; the rows are exactly `Listing`, position by position, so each visible row appears as often as it is stored |
| IngredientsRoute.HouseholdScopedVisibility | app/api/ingredients/route.ts:22-40 | a caller with a non-empty householdId sees exactly the rows whose owner has the same householdId |
| IngredientsRoute.EmptyHouseholdIdSeesOwnRows | app/api/ingredients/route.ts:22-44 | `if (user?.householdId)` is a truthiness test: a caller whose householdId is the empty string sees exactly their own rows |
| IngredientsRoute.OwnRowsVisible | app/api/ingredients/route.ts:43-44 | a caller always sees the rows they own |
| IngredientsRoute.NewestListedFirst | app/api/ingredients/route.ts:39 | a row newer than every stored row comes first in a listing that may see it |
| IngredientsRoute.Post | app/api/ingredients/route.ts:68-105 | succeeds iff every check passes; 401, then 400 when name, quantity, unit or category is falsy, then 500 on a missing user or a taken id; no change on failure; on success exactly one row owned by the caller is appended, with expiryDate null when the input is falsy |
| IngredientsRoute.FindOwnedRow | app/api/ingredients/route.ts:125-130 | the result is a row with both the id and the owner, or none exists |
| IngredientsRoute.RemoveRow | app/api/ingredients/route.ts:125-130 | removing the row with a unique id keeps every other row and the table's constraints |
| IngredientsRoute.Delete | app/api/ingredients/route.ts:107-140 | succeeds iff every check passes; 401, then 400 without an id, then 500 when no row has both the id and the caller as owner; no change on failure; on success exactly that row is removed and every other row stays |
| FoodWasteRoute.Recent | app/api/food-waste/route.ts:17-23 | keeps, as often as they occur, exactly the caller's records wasted at or after the window start |
| FoodWasteRoute.Sum | app/api/food-waste/route.ts:27 | the `reduce` starts from 0, so no records total 0, and records of non-negative quantity total a non-negative amount |
| FoodWasteRoute.SumAppend | app/api/food-waste/route.ts:27 | the sum of two sequences is the sum of their sums |
| FoodWasteRoute.SumInsert | app/api/food-waste/route.ts:24-27 | inserting a record into a newest-first sequence adds its quantity to the sum |
| FoodWasteRoute.SumSorted | app/api/food-waste/route.ts:24-27 | ordering the records newest first does not change the total |
| FoodWasteRoute.Get | app/api/food-waste/route.ts:6-48 | 401 iff there is no caller; otherwise exactly the caller's records of the last 30 days, newest first; itemsSaved is their number, totalWaste the sum of their quantities, moneySaved five times and co2Reduced 2.5 times the total |
| FoodWasteRoute.TwoRecordReport | app/api/food-waste/route.ts:27-38 | records of 2 and 3.5 give the stats 5.5, 27.5, 13.75 and 2 items |
| FoodWasteRoute.LoggedRecordCounts | app/api/food-waste/route.ts:17-27 | a record inside the caller's window adds its quantity to the total; any other record changes nothing |
| FoodWasteRoute.Post | app/api/food-waste/route.ts:50-86 | succeeds iff every check passes; 401, then 400 when ingredientName, quantity or unit is falsy, then 500 on a missing user or taken id; no change on failure; on success exactly one record of the caller is appended with the given name, unit and reason, and existing records stay |
| RecipesGenerateRoute.ParamsOf | app/api/recipes/generate/route.ts:25-31 | the generator receives the body's ingredients, prepTime, dietaryRestrictions, servings and cuisine unchanged |
| RecipesGenerateRoute.RowOf | app/api/recipes/generate/route.ts:33-46 | the saved row copies every field of the generator's output, saves the request's ingredients and is owned by the caller |
| RecipesGenerateRoute.Post | app/api/recipes/generate/route.ts:7-57 | succeeds iff every check passes and generation succeeds; 401, then 400 without ingredients, then 500 "Failed to generate recipe" when generation fails or the insert is rejected, with no row created; on success exactly one row is appended and it is the one returned |
| RecipeGenerator.RemoveAll | components/RecipeGenerator.tsx:53 | the filter keeps exactly the entries different from the name |
| RecipeGenerator.RemoveAllAppend | components/RecipeGenerator.tsx:53 | filtering distributes over concatenation, so the order of the kept entries is preserved |
| RecipeGenerator.RemoveAllAbsent | components/RecipeGenerator.tsx:53 | filtering out a name that is not selected changes nothing |
| RecipeGenerator.RemoveAllDistinct | components/RecipeGenerator.tsx:53 | filtering keeps a selection free of repeats |
| RecipeGenerator.Toggle | components/RecipeGenerator.tsx:50-64 | toggling a selected name removes every occurrence and keeps every other name; toggling an unselected name appends it at the end |
| RecipeGenerator.ToggleTwice | components/RecipeGenerator.tsx:51-55 | toggling an unselected name twice restores the selection |
| RecipeGenerator.ToggleKeepsDistinct | components/RecipeGenerator.tsx:51-55 | toggling keeps a selection free of repeats |
| RecipeGenerator.DropSpaces | components/RecipeGenerator.tsx:126 | the result is a suffix that does not start with whitespace |
| RecipeGenerator.DropSpacesRun | components/RecipeGenerator.tsx:126 | a whitespace run is dropped whole |
| RecipeGenerator.Underscored | components/RecipeGenerator.tsx:126 | `replace(/\s+/g, '_')` leaves no whitespace and never lengthens the title |
| RecipeGenerator.UnderscoredNoSpace | components/RecipeGenerator.tsx:126 | a title without whitespace is kept as it is |
| RecipeGenerator.UnderscoredRun | components/RecipeGenerator.tsx:126 | a maximal whitespace run becomes exactly one '_' |
| RecipeGenerator.FileName | components/RecipeGenerator.tsx:126 | the file name has no whitespace and ends in ".txt" |
| RecipeGenerator.NumberedSteps | components/RecipeGenerator.tsx:117-119 | the k-th line is k+1 in decimal, ". " and the k-th instruction |
| RecipeGenerator.IngredientLines | components/RecipeGenerator.tsx:112-114 | each line is "- quantity unit name" of the corresponding ingredient |
| RecipeGenerator.DownloadText | components/RecipeGenerator.tsx:101-120 | the file opens with a newline, the title, a newline and the description, and ends with the template's newline and four spaces |
| RecipeGenerator.DownloadMentions | components/RecipeGenerator.tsx:101-120 | the file holds the title, every ingredient line, the joined instructions and each numbered instruction |
| RecipeGenerator.BodyOf | components/RecipeGenerator.tsx:77-83 | the posted body carries the selection and the cuisine as the server reads them |
| RecipeGenerator.Generator.constructor | components/RecipeGenerator.tsx:26-32 | the initial state: nothing selected, "30" minutes, "4" servings, no cuisine, no recipe, not loading |
| RecipeGenerator.Generator.HandleIngredientToggle | components/RecipeGenerator.tsx:50-56 | the selection becomes its toggle, stays free of repeats if it was, and nothing else changes |
| RecipeGenerator.Generator.HandleDietaryToggle | components/RecipeGenerator.tsx:58-64 | the restrictions become their toggle, stay free of repeats if they were, and nothing else changes |
| RecipeGenerator.Generator.BuildRequest | components/RecipeGenerator.tsx:77-83 | the request holds the selection, the restrictions, the cuisine and the parsed time and servings |
| RecipeGenerator.Generator.GenerateRecipe | components/RecipeGenerator.tsx:66-96 | with nothing selected no request is sent and the state is unchanged; otherwise the request sent passes the server's ingredient check, a returned recipe replaces the shown one, and loading ends |
| RecipeGenerator.Generator.Download | components/RecipeGenerator.tsx:98-129 | no file without a recipe; otherwise the file is the recipe's text under a name without whitespace |
| IngredientManager.CeilDiv | components/IngredientManager.tsx:93 | `Math.ceil(a / b)`: the least q with a <= q * b |
| IngredientManager.ExpiringSoonWindow | components/IngredientManager.tsx:91-95 | a parsed date is expiring soon iff it lies after one day before now and at most three days after now |
| IngredientManager.BadgeOf | components/IngredientManager.tsx:196-208 | no badge without a date; "Expired" iff expired; "Expiring soon" iff expiring soon and not expired |
| IngredientManager.ExpiredWinsOverlap | components/IngredientManager.tsx:91-100 | a date less than a day in the past is both expired and expiring soon, and shows "Expired" |
| IngredientManager.SetField | components/IngredientManager.tsx:84-89 | the named field takes the value and every other field keeps its own |
| IngredientManager.BodyOf | components/IngredientManager.tsx:46-50 | the posted body is the form's strings |
| IngredientManager.FormAcceptedIffFilled | app/api/ingredients/route.ts:79-84 | the server accepts a form iff its name, quantity, unit and category are non-empty; the reset form is refused |
| IngredientManager.WithoutId | components/IngredientManager.tsx:77 | the filter keeps exactly the items with another id |
| IngredientManager.WithoutIdAppend | components/IngredientManager.tsx:77 | filtering distributes over concatenation, so the kept items keep their order |
| IngredientManager.WithoutIdAbsent | components/IngredientManager.tsx:77 | a list without that id is kept as it is |
| IngredientManager.Manager.constructor | components/IngredientManager.tsx:15-23 | the initial state: no items, the empty form, not loading |
| IngredientManager.Manager.HandleSubmit | components/IngredientManager.tsx:41-68 | on success the new ingredient is first, the old list follows unchanged and the form is reset to "", "", "kg", "vegetables", ""; otherwise list and form stay |
| IngredientManager.Manager.HandleDelete | components/IngredientManager.tsx:70-82 | after an ok response the list is the old list without the items of that id, in order; otherwise it is unchanged |
| IngredientManager.Manager.HandleChange | components/IngredientManager.tsx:84-89 | only the named field changes |

## Left out

- Session resolution by next-auth. The session id is an input. The redirect that `withAuth` performs is not modelled, and neither is the `config.matcher` list (middleware.ts:30-38), which limits where the callback runs.
- Randomness, ids and the clock (`nanoid`, the store's generated ids, `new Date()`). They are inputs.
- The language-model call (lib/claude.ts:52-62): the model name, `max_tokens` and the temperature. The call is the `model` parameter.
- `JSON.parse` is the `parseJson` parameter. A reply that parses but lacks fields makes the recipe insert fail with the same 500. This model folds that case into `parseJson` returning `None`.
- Request bodies of unexpected JSON types are not modelled: `ingredients` that is not an array, `null` where a field is optional, numbers where strings are expected. Only missing, string and number scalars are modelled.
- A request body that is not JSON at all is not modelled. `request.json()` then throws, and the handler's `catch` answers 500 before any 400 check (for example app/api/household/create/route.ts:15). The model's bodies are always parsed values.
- `Claude.Params`: `prepTime` and `servings` are integers, where the source types them as JavaScript numbers (lib/claude.ts:9,11). The component only ever sends `parseInt` results. A fractional value such as 20.5, or a string such as "20", sent to the route directly, would render differently in the prompt, and the model cannot express it.
- `Sorting.SortDesc`: rows with equal `createdAt` or `wastedAt` come out in one fixed order, the one insertion sorting gives, and `IngredientsRoute.Get` and `FoodWasteRoute.Get` pin it position by position. The store's `orderBy` fixes no order among equal timestamps, so that order is not modelled.
- `parseFloat`, `parseInt` and `new Date(s)` are parameters. Their results are ideal reals and integers: NaN is not modelled on the server, and on the client an unparsable date is `None`.
- `FoodWasteRoute.Get`: does not format the totals with `toFixed(2)`, because the totals are exact reals rather than IEEE doubles.
- `FoodWasteRoute.Get`: the window start is exactly 30 × 86 400 000 ms before `now`. `setDate(getDate() - 30)` is local calendar arithmetic, which differs from that by an hour across a daylight-saving change.
- `Common.ToUpper`: upper-cases ASCII letters only, because `nanoid` codes are ASCII. Non-ASCII case mapping in a typed join code is not modelled.
- Store failures other than the ones named above, such as a dropped connection, are not modelled. Neither are concurrent requests: each handler is one atomic step.
- `RecipeGenerator.Generator.GenerateRecipe`: the `alert`, the `fetch` plumbing and the intermediate `loading = true` state, which is not observable in one atomic step.
- `fetchIngredients` in both components, all React rendering, and the Blob and anchor calls of `downloadPDF` (components/RecipeGenerator.tsx:122-128).
- `Store.HouseholdView`: the members are a set, so the order in which the store lists them is not modelled; the queries have no `orderBy`, so the source fixes no order either.
- `toLocaleDateString` in the "Expires" badge is not modelled. The badge carries the date string instead.
- components/HouseholdManager.tsx, components/FoodWasteBarometer.tsx and the page and layout files. None of them is part of this model.
- The predicates `IsExpired`, `IsExpiringSoon`, `VisibleTo`, `InWindow`, `IsProtected`, `HasHousehold` and `Complete` carry no contract of their own. Their properties are stated by the lemmas and functions listed above.
- The same goes for these definitions, each used by contracts listed above:
  - `Common.Truthy`, `Common.TruthyText` (JavaScript truthiness of a body field) and `Common.StartsWith`;
  - `Claude.PromptParts`, `Claude.PrepLine` and `Claude.ServingsLine` (the template pieces of lib/claude.ts:18-49);
  - `RecipeGenerator.DownloadParts` (the template pieces of components/RecipeGenerator.tsx:101-120) and `RecipeGenerator.IsSpace` (the JavaScript `\s` class);
  - `HouseholdCreate.InsertRejected` (the insert failures at app/api/household/create/route.ts:39-57);
  - `RecipesGenerateRoute.HasIngredients` (app/api/recipes/generate/route.ts:18).
