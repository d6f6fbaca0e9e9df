# Meal planner MCP adapter — a verified model

The meal planner exposes a small recipe and ingredient database through the
Model Context Protocol. This project models its core in Dafny:

- the domain schemas (`src/db/schema.ts`, repeated in `src/db/api.ts`), as
  datatypes with validity predicates and parsers that behave like the zod
  schemas (unknown members are stripped, an absent optional member is
  omitted, `null` is not an absent member, and a rejection reports where it
  happened);
- the backend client (`src/db/api.ts`), as a class `Api.Client` whose
  methods talk to a remote store `Store.RemoteStore`, with what the code
  does with each response stated by pure functions;
- the resources (`src/mcp/resources.ts`): the collection reads, and for each
  template its enumeration, its `id` completion and its single-item read;
- the `suggest-ingredients` prompt (`src/mcp/prompts.ts`): its `recipeId`
  completion and the message it composes.

Modules, one per file:

- `Wrappers`: `Option` and `Result`.
- `Json`: JSON values.
- `Text`: the JavaScript string operations the code uses (`includes`,
  `filter` with it, and `trim`).
- `Schema`: the schemas.
- `Store`: the remote store.
- `Api`: the client.
- `Resources`: the resource handlers.
- `Prompts`: the prompt.

The store is an assumption of the model, not code of the adapter. It
behaves like the json-server the client is written against:

- It holds two collections of raw JSON records in listing order. They are
  raw so that the client's validation has something to reject, and ordered
  so that listing order can be stated.
- An item route finds the first record with that `id`.
- "Not found" is a response that is not ok.
- A create appends the posted record.
- A partial update merges the body's members into the record.
- A delete removes the record and answers with the record it removed,
  which is what the delete tools' output schemas (src/mcp/tools.ts:76,
  :182) expect back.
- Every request is recorded in a ghost log, so contracts can say which
  requests an operation makes, for example "no create after a failed
  duplicate check" or "the prompt only reads".

Each resource and prompt callback is modelled as a function of the outcome
of the backend call it awaits, failures included, plus its own inputs. A
`Handle…` method composes that function with the client call. JSON
serialisation (`JSON.stringify`) is an uninterpreted parameter
`stringify: Json -> string`.

The model follows the code in three places that are easy to misread:

- When the recipe is absent, the prompt fails with "Recipe is required".
  That message does not name the id (src/mcp/prompts.ts:29-31).
- The api.ts update form for ingredients (src/db/api.ts:50-55) does more
  than add an optional numeric `quantity` to the schema.ts form. It keeps a
  numeric `quantity`, which schema.ts strips as an unknown member. It also
  rejects a non-numeric `quantity`, which schema.ts ignores. Apart from
  `quantity` the two forms accept the same objects and read the same members
  (`Api.UpdateWithQuantityAgainstSchemaUpdate`).
- `src/mcp/server.ts` never registers the prompt. The prompt is modelled as
  written, but nothing here claims that a client can reach it.

## Model

| member | source | states |
|---|---|---|
| Schema.UnitName | src/db/schema.ts:6 | every unit's spelling is accepted by the enum and parses back to that unit |
| Schema.ParseUnit | src/db/schema.ts:6 | a string is a unit exactly when it is one of kg, pcs, g, ml, l |
| Schema.ParseUnitInverts | src/db/schema.ts:6 | an accepted spelling is the name of the unit it parses to |
| Schema.ParseEach | src/db/schema.ts:9 | an array parses exactly when every element does, pointwise and in order; otherwise the issue points at the first rejected element, under its index |
| Schema.ParseIngredient | src/db/schema.ts:3-7 | accepted exactly when the value is an object with string `id` and `name` and a `unit` from the enum; the fields come from those members; a rejection names the first member, in the order `id`, `name`, `unit`, that fails, with every member before it valid, or the root for a non-object |
| Schema.IngredientRoundTrip | src/db/schema.ts:3-7 | an ingredient's JSON form is valid and parses back to the same ingredient |
| Schema.IngredientListToJson | src/db/schema.ts:9 | the JSON form of a list is an array holding each ingredient's form in order |
| Schema.ParseIngredientList | src/db/schema.ts:9 | a list is valid exactly when it is an array of valid ingredients, so one bad element rejects it; the issue is the first bad index followed by that element's own issue, and every element before it is valid |
| Schema.IngredientListRoundTrip | src/db/schema.ts:9 | a list's JSON form parses back to the same list |
| Schema.IngredientIds | src/mcp/resources.ts:46-47 | the ids of a listing, one per ingredient, in listing order |
| Schema.OptionalString | src/db/schema.ts:13-14 | an optional string member reads as absent or as exactly its value |
| Schema.ParseIngredientUpdate | src/db/schema.ts:11-15 | accepted exactly when `id` is a string and `name` and `unit`, if present, are strings of any content; the result carries exactly those members; a rejection names the first member, in the order `id`, `name`, `unit`, that fails |
| Schema.IngredientIsUpdate | src/db/schema.ts:3-15 | every valid ingredient is a valid ingredient update with the same id, name and unit spelling |
| Schema.UpdateNeedsOnlyId | src/db/schema.ts:11-15 | `{id}` alone is a valid update, with both optional fields absent, but not a valid ingredient |
| Schema.UpdateUnitIsFreeForm | src/db/schema.ts:14 | an update may carry a unit outside the enum, which a full ingredient may not |
| Schema.ParseRecipeIngredient | src/db/schema.ts:17-20 | an entry is accepted exactly when `id` is a string and `quantity`, if present, is a number; an absent quantity stays absent; a rejection names `id`, or `quantity` with a valid `id` |
| Schema.RecipeIngredientRoundTrip | src/db/schema.ts:17-20 | an entry's JSON form parses back to the same entry |
| Schema.RecipeIngredientListToJson | src/db/schema.ts:25 | an entry list's JSON form holds each entry's form in order |
| Schema.ParseRecipeIngredientList | src/db/schema.ts:25 | an entry list is valid exactly when every element is a valid entry; the issue sits under the first bad index |
| Schema.RecipeIngredientListRoundTrip | src/db/schema.ts:25 | an entry list's JSON form parses back to the same entries |
| Schema.ParseRecipe | src/db/schema.ts:22-26 | accepted exactly when `id` and `name` are strings and `ingredients` is an array of valid entries; a rejection names the first failing member in the order `id`, `name`, `ingredients`, and a missing list is reported at `ingredients` itself, and a bad entry under `ingredients` followed by the entry list's own issue |
| Schema.RecipeRoundTrip | src/db/schema.ts:22-26 | a recipe's JSON form is valid and parses back to the same recipe |
| Schema.RecipeMayBeEmpty | src/db/schema.ts:25 | a recipe with no ingredients is valid |
| Schema.RecipeListToJson | src/db/schema.ts:28 | a recipe list's JSON form holds each recipe's form in order |
| Schema.ParseRecipeList | src/db/schema.ts:28 | a recipe list is valid exactly when every element is a valid recipe; the issue is the first bad index followed by that recipe's own issue, and every recipe before it is valid |
| Schema.RecipeIds | src/mcp/resources.ts:111-112 | the ids of a recipe listing, in listing order |
| Schema.RecipeListRoundTrip | src/db/schema.ts:28 | a recipe list's JSON form parses back to the same list |
| Schema.ParseRecipeUpdate | src/db/schema.ts:30-34 | accepted exactly when `id` is a string and `name` and `ingredients`, if present, are a string and a valid entry list; the result carries exactly those members; a rejection names the first failing member in the order `id`, `name`, `ingredients` |
| Schema.RecipeUpdateRoundTrip | src/db/schema.ts:30-34 | an update's JSON form parses back to the same update |
| Schema.RecipeIsUpdate | src/db/schema.ts:22-34 | every valid recipe is a valid recipe update with the same id, name and entries |
| Api.Validated | src/db/api.ts:17 | a schema outcome passes through, with a rejection becoming a schema violation |
| Api.ParseIngredientUpdateWithQuantity | src/db/api.ts:50-55 | accepted exactly when `id` is a string, `name` and `unit` are optional strings and `quantity` is an optional number; the result carries exactly those members; a rejection names the first member, in the order `id`, `name`, `quantity`, `unit`, that fails, or the root for a non-object |
| Api.UpdateWithQuantityAgainstSchemaUpdate | src/db/api.ts:50-55 | api.ts accepts exactly the schema.ts updates whose quantity is absent or a number, and both read the same id, name and unit; a numeric quantity is kept by api.ts and dropped by schema.ts; any schema.ts update whose quantity is not a number is rejected by api.ts at `quantity` |
| Api.IngredientPatchBody | src/db/api.ts:57-63 | the PATCH body never contains `id` and holds only `name`, `quantity` and `unit` |
| Api.UpdateIngredientRequest | src/db/api.ts:57-63 | the update is a PATCH of the ingredients item addressed by the update's id, with the body above |
| Api.IngredientPatchRoundTrip | src/db/api.ts:57-63 | the body plus the id gives back exactly the update, so no member is lost or invented |
| Api.RecipePatchBody | src/db/api.ts:126-135 | the recipe PATCH body never contains `id` and holds only `name` and `ingredients` |
| Api.UpdateRecipeRequest | src/db/api.ts:126-135 | the recipe update is a PATCH of the recipes item addressed by the update's id |
| Api.RecipePatchRoundTrip | src/db/api.ts:126-135 | the recipe body plus the id gives back exactly the update |
| Api.IngredientFromResponse | src/db/api.ts:20-27 | a response that is not ok gives absent and not an error; an ok body is valid exactly when the result is a success, and it is the body parsed |
| Api.IngredientListFromResponse | src/db/api.ts:14-18 | the body is validated whatever the status: a success exactly when it is a valid list, and then the parsed list |
| Api.RecipeFromResponse | src/db/api.ts:87-94 | absent for a response that is not ok; otherwise the body validated as a recipe |
| Api.RecipeListFromResponse | src/db/api.ts:81-85 | the body validated as a recipe list, whatever the status |
| Api.DuplicateIngredientMessage | src/db/api.ts:32 | the duplicate-ingredient message contains the id |
| Api.DuplicateRecipeMessage | src/db/api.ts:99 | the duplicate-recipe message contains the id |
| Api.GetAfterAddIngredient | src/db/api.ts:20-41 | after creating an ingredient under a fresh id, reading that id gives back the ingredient |
| Api.GetAfterAddRecipe | src/db/api.ts:87-111 | after creating a recipe under a fresh id, reading that id gives back the recipe |
| Api.UpdateIngredientKeepsOtherMembers | src/db/api.ts:57-66 | after an update, under the store's merge, the record has each sent member, also one it did not have before (such as the api.ts `quantity`), and keeps every member it did not send, its id included |
| Api.FreeFormUnitBreaksReads | src/db/api.ts:50-66 | an update with a unit outside the enum is sent as it is, and afterwards reading that ingredient and listing the ingredients both fail validation |
| Api.Client.GetIngredientList | src/db/api.ts:14-18 | one GET of the collection and no change; a success exactly when every stored record is a valid ingredient, and then the records parsed in order |
| Api.Client.GetIngredient | src/db/api.ts:20-27 | one GET of the item and no change; absent when no record has the id; otherwise the found record validated |
| Api.Client.AddIngredient | src/db/api.ts:29-41 | with the id present: only the check is requested, nothing is created, and the call fails, with the duplicate message when the stored record validates and with a schema violation carrying exactly the issue that parsing the stored record reports when it does not; with a fresh id: a check then a POST of the ingredient, which is appended and returned; unique ids are kept |
| Api.Client.DeleteIngredient | src/db/api.ts:43-48 | one DELETE of the item; the store's raw answer is returned without validation, which is the removed record, or `{}` when there was none; afterwards no record has the id; unique ids are kept |
| Api.Client.UpdateIngredient | src/db/api.ts:57-66 | one PATCH without `id`; the raw answer is returned without validation; the found record is merged; unique ids are kept |
| Api.Client.GetRecipeList | src/db/api.ts:81-85 | one GET of the recipes and no change; a success exactly when every stored record is a valid recipe |
| Api.Client.GetRecipe | src/db/api.ts:87-94 | one GET of the item and no change; absent when no record has the id; otherwise the record validated |
| Api.Client.AddRecipe | src/db/api.ts:96-111 | a duplicate id creates nothing and fails, with the duplicate message when the stored record validates and with a schema violation carrying exactly the issue that parsing the stored record reports otherwise; a fresh id is posted, appended and returned; unique ids are kept |
| Api.Client.DeleteRecipe | src/db/api.ts:113-118 | one DELETE; the raw answer is returned without validation, which is the removed record, or `{}` when there was none; afterwards no record has the id |
| Api.Client.UpdateRecipe | src/db/api.ts:126-138 | one PATCH without `id`; the raw answer is returned; the found record is merged |
| Resources.ReadIngredients | src/mcp/resources.ts:15-26 | a failed listing is passed on; otherwise exactly one JSON content item for the requested uri, whose text serialises the whole listing, and that serialised value validates back to the listing |
| Resources.ListIngredientResources | src/mcp/resources.ts:32-41 | one resource per ingredient in listing order, with uri `meal-planner://ingredients/` + id, name and title the ingredient's name, and the JSON mime type |
| Resources.TemplatesExtendCollections | src/mcp/resources.ts:10-31 | each template's fixed part is its collection's uri followed by a slash, so every item uri starts with its collection's uri and is never the other collection's uri |
| Resources.ListedIngredientUris | src/mcp/resources.ts:36 | every enumerated uri starts with the template prefix, the id follows it, and different ids give different uris |
| Resources.CompleteIngredientId | src/mcp/resources.ts:44-48 | exactly the listed ids that contain the value, in listing order; an empty value gives every id |
| Resources.IngredientNotFoundMessage | src/mcp/resources.ts:59 | the not-found message contains the id |
| Resources.ReadIngredient | src/mcp/resources.ts:56-70 | an absent ingredient fails with the message that names the id; a present one gives exactly one JSON content item with the uri echoed |
| Resources.ReadRecipes | src/mcp/resources.ts:80-91 | exactly one JSON content item for the uri, serialising the whole recipe listing |
| Resources.ListRecipeResources | src/mcp/resources.ts:97-106 | one resource per recipe in listing order, with uri `meal-planner://recipes/` + id and name and title the recipe's name |
| Resources.ListedRecipeUris | src/mcp/resources.ts:101 | enumerated recipe uris are the prefix followed by the id, and they tell recipes apart |
| Resources.CompleteRecipeId | src/mcp/resources.ts:109-113 | exactly the recipe ids that contain the value, in listing order; an empty value gives every id |
| Resources.RecipeNotFoundMessage | src/mcp/resources.ts:124 | the recipe not-found message contains the id |
| Resources.ReadRecipe | src/mcp/resources.ts:121-135 | an absent recipe fails naming the id; a present one gives exactly one JSON content item with the uri echoed |
| Resources.HandleReadIngredients | src/mcp/resources.ts:15-26 | one listing request, nothing changed, and the read above applied to its outcome |
| Resources.HandleListIngredients | src/mcp/resources.ts:32-42 | one listing request, nothing changed, and the enumeration of its outcome |
| Resources.HandleCompleteIngredientId | src/mcp/resources.ts:44-49 | one listing request, nothing changed, and the completion of its outcome |
| Resources.HandleReadIngredient | src/mcp/resources.ts:56-70 | one item request, nothing changed, and the single-item read of its outcome |
| Resources.HandleReadRecipes | src/mcp/resources.ts:80-91 | one listing request, nothing changed, and the collection read of its outcome |
| Resources.HandleListRecipes | src/mcp/resources.ts:97-107 | one listing request, nothing changed, and the enumeration of its outcome |
| Resources.HandleCompleteRecipeId | src/mcp/resources.ts:109-114 | one listing request, nothing changed, and the completion of its outcome |
| Resources.HandleReadRecipe | src/mcp/resources.ts:121-135 | one item request, nothing changed, and the single-item read of its outcome |
| Prompts.MessageText | src/mcp/prompts.ts:38-43 | trimming the template literal removes exactly its framing line breaks and indentation and leaves the message intact, whatever the id and the recipe text hold |
| Prompts.ClosingNamesTools | src/mcp/prompts.ts:40-42 | the instructions name the tools `list-ingredients`, `add-ingredient` and `add-ingredient-to-recipe` |
| Prompts.MessageMentions | src/mcp/prompts.ts:39-42 | the message quotes the requested id, carries the serialised recipe, and names all three tools |
| Prompts.MessageNamesRecipe | src/mcp/prompts.ts:39 | the message opens with the fixed phrase and the quoted id, so the id can be read back from it |
| Prompts.SuggestIngredients | src/mcp/prompts.ts:27-47 | a failed read is passed on; an absent recipe fails with "Recipe is required"; a present one gives exactly one user text message about that recipe |
| Prompts.NotFoundIgnoresId | src/mcp/prompts.ts:29-31 | the absent-recipe failure is the same for every id |
| Prompts.CompleteRecipeArgument | src/mcp/prompts.ts:17-23 | one listing request, nothing changed, and exactly the recipe ids that contain the value, in listing order, by the recipe template's completion |
| Prompts.HandleSuggestIngredients | src/mcp/prompts.ts:27-28 | the prompt makes one GET of the recipe and changes nothing in the store; no such recipe gives "Recipe is required" |

## Left out

- `src/app.ts` (HTTP bootstrap, CORS, port parsing, transports) is not part of this model. It is I/O and per-request concurrency.
- `src/mcp/server.ts` (the SDK server object and the registration calls) is not part of this model. The SDK's routing of uris to templates, including its template matching, is also left out.
- `src/mcp/tools.ts` is not part of this model. That includes its `addIngredientToRecipe`, which `src/db/api.ts` does not define.
- `fetch`, HTTP status codes and `response.json()` are left out. The store always answers, with an ok flag and a JSON body: a `fetch` that rejects because the backend is unreachable, and a `response.json()` that throws on a body that is not JSON, are not modelled. The server URL, request headers and URL encoding are not modelled. Ids are spliced into routes as they are, and the store addresses records by the id as given. So the model does not capture that an empty id makes src/db/api.ts:21 request `/ingredients/`, the collection route, which json-server answers with the listing: in the source `addIngredient` with id `""` then fails in `IngredientSchema.parse` on an array, while in the model the check finds nothing and the ingredient is created. An id holding `/`, `?` or `#` likewise reaches a different route in the source but not in the model. The ingredient POST and PATCH (src/db/api.ts:35-38, :61-64) are sent without a `Content-Type` header, while the recipe POST and PATCH (src/db/api.ts:102-108, :130-135) send `application/json`; the model treats all these bodies alike.
- The store's behaviour is an assumption about json-server: append on create, shallow merge on update, the removed record as the answer to a delete, and `{}` for a request that finds nothing. It is not a property of the adapter. `Api.UpdateIngredientKeepsOtherMembers` and the `Valid()` preservation clauses hold under that assumption only.
- The store is two sequences of raw records rather than two maps from id to entity. Sequences keep the listing order, which completion and enumeration preserve. Raw records let validation fail. Unique ids are an invariant (`Valid`) that the client's duplicate check keeps, not something the store enforces.
- Between the duplicate check and the create, other requests may interleave in the source. The model runs each operation to completion, so that race is not captured.
- The schema parsers report only the first issue, checking members in each schema's declaration order. zod collects every issue, and its messages and issue codes are not modelled.
- JavaScript numbers are modelled as reals. NaN, infinities and the 64-bit floating-point range are not.
- Strings are sequences of characters, not UTF-16 code units. `includes` and `trim` are modelled on characters.
- `JSON.stringify` is an uninterpreted parameter, so the model says which value is serialised but not the text produced.
- The `completable` wrapper, the prompt's argument schema, and all titles and descriptions are registration metadata and are not modelled.
- `console.log` calls are dropped.
