/** The backend client of src/db/api.ts. Each operation issues its requests
    to the remote store (`Store.RemoteStore.Fetch` stands for `fetch` against
    `JSON_SERVER_URL`) and validates what comes back, except delete and
    update, which hand back the raw response body.

    What the code does with a response is stated by the pure functions
    `IngredientFromResponse`, `IngredientListFromResponse` and their recipe
    counterparts, and what it sends by the request builders; the `Client`
    methods compose them with the store. The Ingredient, Recipe and list
    schemas that api.ts declares again at its lines 4-12 and 68-79 are the
    same as those of src/db/schema.ts and are taken from `Schema`; its
    UpdateIngredientSchema differs and is modelled here. */
module Api {
  import opened Wrappers
  import opened Json
  import opened Text
  import opened Schema
  import opened Store

  /** What an operation throws: a schema rejection (zod's error) or an
      `Error` with its message. */
  datatype Failure = SchemaViolation(issue: Issue) | Error(message: string)

  function Validated<T>(r: Result<T, Issue>): (v: Result<T, Failure>)
    ensures v.Ok? <==> r.Ok?
    ensures v.Ok? ==> v.value == r.value
    ensures v.Err? ==> v.error == SchemaViolation(r.error)
  {
    match r
    case Ok(x) => Ok(x)
    case Err(e) => Err(SchemaViolation(e))
  }

  // ----- Requests -----

  /** `GET /ingredients` or `GET /recipes`. */
  function ListRequest(c: Collection): Request {
    Request(Get, c, None, None)
  }

  /** A request on the item route `/<collection>/<id>` without a body. */
  function ItemRequest(verb: Verb, c: Collection, id: string): Request {
    Request(verb, c, Some(id), None)
  }

  /** `POST /<collection>` with the entity as body. */
  function CreateRequest(c: Collection, body: Json): Request {
    Request(Post, c, None, Some(body))
  }

  // ----- The update schema of api.ts (lines 50-55) -----

  /** The update form of api.ts: like that of schema.ts, and with an
      optional numeric `quantity`. */
  datatype IngredientUpdateWithQuantity =
    IngredientUpdateWithQuantity(id: string, name: Option<string>, quantity: Option<real>, unit: Option<string>)

  predicate IsIngredientUpdateWithQuantity(j: Json) {
    j.JObject? && StringAt(j, "id") && OptionalStringAt(j, "name")
    && OptionalNumberAt(j, "quantity") && OptionalStringAt(j, "unit")
  }

  /** The member `key` of `j` is the first member, in the schema's order
      `id`, `name`, `quantity`, `unit`, that fails its check. */
  predicate UpdateWithQuantityMemberRejected(j: Json, key: string) {
    (key == "id" && !StringAt(j, "id"))
    || (key == "name" && StringAt(j, "id") && !OptionalStringAt(j, "name"))
    || (key == "quantity" && StringAt(j, "id") && OptionalStringAt(j, "name") && !OptionalNumberAt(j, "quantity"))
    || (key == "unit" && StringAt(j, "id") && OptionalStringAt(j, "name") && OptionalNumberAt(j, "quantity")
        && !OptionalStringAt(j, "unit"))
  }

  function ParseIngredientUpdateWithQuantity(j: Json): (r: Result<IngredientUpdateWithQuantity, Issue>)
    ensures r.Ok? <==> IsIngredientUpdateWithQuantity(j)
    ensures r.Ok? ==> j.fields["id"] == JString(r.value.id)
                      && OptionalStringIs(j, "name", r.value.name) && OptionalStringIs(j, "unit", r.value.unit)
                      && (r.value.quantity.Some? <==> "quantity" in j.fields)
                      && (r.value.quantity.Some? ==> j.fields["quantity"] == JNumber(r.value.quantity.value))
    ensures r.Err? && !j.JObject? ==> r.error.path == []
    ensures r.Err? && j.JObject? ==>
              |r.error.path| == 1 && r.error.path[0].Key? && UpdateWithQuantityMemberRejected(j, r.error.path[0].name)
  {
    if !j.JObject? then Err(Issue([]))
    else if !StringAt(j, "id") then Err(Issue([Key("id")]))
    else if !OptionalStringAt(j, "name") then Err(Issue([Key("name")]))
    else if !OptionalNumberAt(j, "quantity") then Err(Issue([Key("quantity")]))
    else if !OptionalStringAt(j, "unit") then Err(Issue([Key("unit")]))
    else Ok(IngredientUpdateWithQuantity(j.fields["id"].str, OptionalString(j, "name"),
                                         if "quantity" in j.fields then Some(j.fields["quantity"].n) else None,
                                         OptionalString(j, "unit")))
  }

  /** The api.ts update form differs from the schema.ts one in `quantity`
      alone: it accepts exactly the schema.ts updates whose quantity is
      absent or a number, and then reads the same id, name and unit; a
      numeric quantity is kept (schema.ts drops it as an unknown key), and
      any other quantity is rejected (schema.ts ignores it). */
  lemma UpdateWithQuantityAgainstSchemaUpdate(j: Json, id: string, q: real)
    ensures IsIngredientUpdateWithQuantity(j) <==> IsIngredientUpdate(j) && OptionalNumberAt(j, "quantity")
    ensures IsIngredientUpdateWithQuantity(j) ==>
              var (a, b) := (ParseIngredientUpdateWithQuantity(j).value, ParseIngredientUpdate(j).value);
              a.id == b.id && a.name == b.name && a.unit == b.unit
    ensures IsIngredientUpdate(j) && "quantity" in j.fields && !j.fields["quantity"].JNumber? ==>
              ParseIngredientUpdateWithQuantity(j) == Err(Issue([Key("quantity")]))
    ensures var withNumber := JObject(map["id" := JString(id), "quantity" := JNumber(q)]);
            && ParseIngredientUpdateWithQuantity(withNumber) == Ok(IngredientUpdateWithQuantity(id, None, Some(q), None))
            && ParseIngredientUpdate(withNumber) == Ok(IngredientUpdate(id, None, None))
    ensures var withText := JObject(map["id" := JString(id), "quantity" := JString("2")]);
            && IsIngredientUpdate(withText) && !IsIngredientUpdateWithQuantity(withText)
  {
  }

  // ----- Partial updates -----

  /** The body of updateIngredient's PATCH: the update without its id,
      holding exactly the members that are present. */
  function IngredientPatchBody(u: IngredientUpdateWithQuantity): (body: map<string, Json>)
    ensures "id" !in body
    ensures forall k :: k in body ==> k in {"name", "quantity", "unit"}
  {
    OptionalMember("name", OptionalStringJson(u.name))
    + OptionalMember("quantity", if u.quantity.Some? then Some(JNumber(u.quantity.value)) else None)
    + OptionalMember("unit", OptionalStringJson(u.unit))
  }

  /** `PATCH /ingredients/<id>`: addressed by the update's id, the body
      carrying the rest. */
  function UpdateIngredientRequest(u: IngredientUpdateWithQuantity): (req: Request)
    ensures req.verb == Patch && req.collection == Ingredients && req.id == Some(u.id)
    ensures req.body == Some(JObject(IngredientPatchBody(u)))
  {
    Request(Patch, Ingredients, Some(u.id), Some(JObject(IngredientPatchBody(u))))
  }

  /** Nothing of the update is lost by moving the id to the route: the id
      put back beside the body gives the same update again. */
  lemma IngredientPatchRoundTrip(u: IngredientUpdateWithQuantity)
    ensures ParseIngredientUpdateWithQuantity(JObject(IngredientPatchBody(u)["id" := JString(u.id)])) == Ok(u)
  {
  }

  /** The body of updateRecipe's PATCH. */
  function RecipePatchBody(u: RecipeUpdate): (body: map<string, Json>)
    ensures "id" !in body
    ensures forall k :: k in body ==> k in {"name", "ingredients"}
  {
    OptionalMember("name", OptionalStringJson(u.name))
    + OptionalMember("ingredients",
        if u.ingredients.Some? then Some(RecipeIngredientListToJson(u.ingredients.value)) else None)
  }

  /** `PATCH /recipes/<id>`. */
  function UpdateRecipeRequest(u: RecipeUpdate): (req: Request)
    ensures req.verb == Patch && req.collection == Recipes && req.id == Some(u.id)
    ensures req.body == Some(JObject(RecipePatchBody(u)))
  {
    Request(Patch, Recipes, Some(u.id), Some(JObject(RecipePatchBody(u))))
  }

  lemma RecipePatchRoundTrip(u: RecipeUpdate)
    ensures ParseRecipeUpdate(JObject(RecipePatchBody(u)["id" := JString(u.id)])) == Ok(u)
  {
    if u.ingredients.Some? {
      RecipeIngredientListRoundTrip(u.ingredients.value);
    }
  }

  // ----- Reading responses -----

  /** getIngredient once its response is in: absent (null) when the
      response is not ok, otherwise the body validated as an ingredient. */
  function IngredientFromResponse(resp: Response): (r: Result<Option<Ingredient>, Failure>)
    ensures !resp.ok ==> r == Ok(None)
    ensures resp.ok ==> (r.Ok? <==> IsIngredient(resp.body))
    ensures resp.ok && r.Ok? ==> r.value == Some(ParseIngredient(resp.body).value)
    ensures r.Err? ==> r.error.SchemaViolation?
  {
    if !resp.ok then Ok(None)
    else match ParseIngredient(resp.body)
      case Ok(i) => Ok(Some(i))
      case Err(e) => Err(SchemaViolation(e))
  }

  /** getIngredientList once its response is in: the body validated as an
      ingredient list, whatever the status (there is no ok check). */
  function IngredientListFromResponse(resp: Response): (r: Result<seq<Ingredient>, Failure>)
    ensures r.Ok? <==> IsIngredientList(resp.body)
    ensures r.Ok? ==> ParseIngredientList(resp.body) == Ok(r.value)
    ensures r.Err? ==> r.error.SchemaViolation?
  {
    Validated(ParseIngredientList(resp.body))
  }

  /** getRecipe once its response is in. */
  function RecipeFromResponse(resp: Response): (r: Result<Option<Recipe>, Failure>)
    ensures !resp.ok ==> r == Ok(None)
    ensures resp.ok ==> (r.Ok? <==> IsRecipe(resp.body))
    ensures resp.ok && r.Ok? ==> r.value == Some(ParseRecipe(resp.body).value)
    ensures r.Err? ==> r.error.SchemaViolation?
  {
    if !resp.ok then Ok(None)
    else match ParseRecipe(resp.body)
      case Ok(x) => Ok(Some(x))
      case Err(e) => Err(SchemaViolation(e))
  }

  /** getRecipeList once its response is in. */
  function RecipeListFromResponse(resp: Response): (r: Result<seq<Recipe>, Failure>)
    ensures r.Ok? <==> IsRecipeList(resp.body)
    ensures r.Ok? ==> ParseRecipeList(resp.body) == Ok(r.value)
    ensures r.Err? ==> r.error.SchemaViolation?
  {
    Validated(ParseRecipeList(resp.body))
  }

  /** What getIngredientList yields from a store holding `records`. */
  function IngredientListing(records: seq<Json>): Result<seq<Ingredient>, Failure> {
    IngredientListFromResponse(Serve(records, ListRequest(Ingredients)).1)
  }

  /** What getIngredient(id) yields from a store holding `records`. */
  function IngredientLookup(records: seq<Json>, id: string): Result<Option<Ingredient>, Failure> {
    IngredientFromResponse(Serve(records, ItemRequest(Get, Ingredients, id)).1)
  }

  /** What getRecipeList yields from a store holding `records`. */
  function RecipeListing(records: seq<Json>): Result<seq<Recipe>, Failure> {
    RecipeListFromResponse(Serve(records, ListRequest(Recipes)).1)
  }

  /** What getRecipe(id) yields from a store holding `records`. */
  function RecipeLookup(records: seq<Json>, id: string): Result<Option<Recipe>, Failure> {
    RecipeFromResponse(Serve(records, ItemRequest(Get, Recipes, id)).1)
  }

  function DuplicateIngredientMessage(id: string): (m: string)
    ensures Includes(m, id)
  {
    IncludesInfix("Ingredient with id ", id, " already exists");
    "Ingredient with id " + id + " already exists"
  }

  function DuplicateRecipeMessage(id: string): (m: string)
    ensures Includes(m, id)
  {
    IncludesInfix("Recipe with id ", id, " already exists");
    "Recipe with id " + id + " already exists"
  }

  // ----- Properties of the client against the store -----

  /** Reading an ingredient right after creating it under a fresh id gives
      back that ingredient. */
  lemma GetAfterAddIngredient(records: seq<Json>, i: Ingredient)
    requires Find(records, i.id).None?
    ensures IngredientFromResponse(Serve(records + [IngredientToJson(i)], ItemRequest(Get, Ingredients, i.id)).1) == Ok(Some(i))
  {
    FindAppended(records, IngredientToJson(i), i.id);
    IngredientRoundTrip(i);
  }

  /** Reading a recipe right after creating it under a fresh id gives back
      that recipe. */
  lemma GetAfterAddRecipe(records: seq<Json>, r: Recipe)
    requires Find(records, r.id).None?
    ensures RecipeFromResponse(Serve(records + [RecipeToJson(r)], ItemRequest(Get, Recipes, r.id)).1) == Ok(Some(r))
  {
    FindAppended(records, RecipeToJson(r), r.id);
    RecipeRoundTrip(r);
  }

  /** After an ingredient update the stored record has every sent member,
      including one it did not have before, and keeps every other member it
      had, its id included. */
  lemma UpdateIngredientKeepsOtherMembers(records: seq<Json>, u: IngredientUpdateWithQuantity, key: string)
    requires Find(records, u.id).Some? && Find(records, u.id).value.JObject?
    requires key in Find(records, u.id).value.fields || key in IngredientPatchBody(u)
    ensures var after := Serve(records, UpdateIngredientRequest(u)).0;
            var record := Find(records, u.id).value;
            && Find(after, u.id).Some? && Find(after, u.id).value.JObject?
            && key in Find(after, u.id).value.fields
            && Find(after, u.id).value.fields[key] ==
                 if key in IngredientPatchBody(u) then IngredientPatchBody(u)[key] else record.fields[key]
  {
    FindPatched(records, u.id, IngredientPatchBody(u));
  }

  /** An update whose unit is outside the enumeration is sent as it is; from
      then on reading that ingredient, and listing the ingredients, fail
      validation. */
  lemma FreeFormUnitBreaksReads(records: seq<Json>, u: IngredientUpdateWithQuantity)
    requires Find(records, u.id).Some? && Find(records, u.id).value.JObject?
    requires u.unit.Some? && ParseUnit(u.unit.value).None?
    ensures var after := Serve(records, UpdateIngredientRequest(u)).0;
            && IngredientFromResponse(Serve(after, ItemRequest(Get, Ingredients, u.id)).1).Err?
            && IngredientListFromResponse(Serve(after, ListRequest(Ingredients)).1).Err?
  {
    var body := IngredientPatchBody(u);
    assert "unit" in body && body["unit"] == JString(u.unit.value);
    FindPatched(records, u.id, body);
    var after := Serve(records, UpdateIngredientRequest(u)).0;
    var found := Find(after, u.id).value;
    assert !IsIngredient(found);
    var k :| 0 <= k < |after| && after[k] == found;
    assert !IsIngredient(after[k]);
  }

  /** The client: src/db/api.ts's functions, over the store they fetch from. */
  class Client {
    const store: RemoteStore

    constructor (store: RemoteStore)
      ensures this.store == store
    {
      this.store := store;
    }

    /** getIngredientList: the whole collection, each record validated, in
        listing order; one invalid record fails the call. */
    method GetIngredientList() returns (r: Result<seq<Ingredient>, Failure>)
      modifies store
      ensures store.requests == old(store.requests) + [ListRequest(Ingredients)]
      ensures store.ingredients == old(store.ingredients) && store.recipes == old(store.recipes)
      ensures r == IngredientListing(store.ingredients)
      ensures r.Ok? <==> forall k :: 0 <= k < |store.ingredients| ==> IsIngredient(store.ingredients[k])
      ensures r.Ok? ==> |r.value| == |store.ingredients|
                        && forall k :: 0 <= k < |r.value| ==> ParseIngredient(store.ingredients[k]) == Ok(r.value[k])
      ensures r.Err? ==> r.error.SchemaViolation?
    {
      var resp := store.Fetch(ListRequest(Ingredients));
      r := IngredientListFromResponse(resp);
    }

    /** getIngredient: absent when the store has no such record, otherwise
        the record validated. */
    method GetIngredient(id: string) returns (r: Result<Option<Ingredient>, Failure>)
      modifies store
      ensures store.requests == old(store.requests) + [ItemRequest(Get, Ingredients, id)]
      ensures store.ingredients == old(store.ingredients) && store.recipes == old(store.recipes)
      ensures r == IngredientLookup(store.ingredients, id)
      ensures Find(store.ingredients, id).None? ==> r == Ok(None)
      ensures Find(store.ingredients, id).Some? ==>
                && (r.Ok? <==> IsIngredient(Find(store.ingredients, id).value))
                && (r.Ok? ==> r.value == Some(ParseIngredient(Find(store.ingredients, id).value).value))
      ensures r.Err? ==> r.error.SchemaViolation?
    {
      var resp := store.Fetch(ItemRequest(Get, Ingredients, id));
      r := IngredientFromResponse(resp);
    }

    /** addIngredient: the existence check first; an id already present
        fails and nothing is created; otherwise the ingredient is posted and
        the validated echo returned. */
    method AddIngredient(ingredient: Ingredient) returns (r: Result<Ingredient, Failure>)
      modifies store
      ensures store.recipes == old(store.recipes)
      ensures old(Find(store.ingredients, ingredient.id)).Some? ==>
                && store.requests == old(store.requests) + [ItemRequest(Get, Ingredients, ingredient.id)]
                && store.ingredients == old(store.ingredients)
                && r.Err?
      ensures old(Find(store.ingredients, ingredient.id)).Some? && IsIngredient(old(Find(store.ingredients, ingredient.id)).value) ==>
                r == Err(Error(DuplicateIngredientMessage(ingredient.id)))
      ensures old(Find(store.ingredients, ingredient.id)).Some? && !IsIngredient(old(Find(store.ingredients, ingredient.id)).value) ==>
                r == Err(SchemaViolation(ParseIngredient(old(Find(store.ingredients, ingredient.id)).value).error))
      ensures old(Find(store.ingredients, ingredient.id)).None? ==>
                && store.requests == old(store.requests) + [ItemRequest(Get, Ingredients, ingredient.id),
                                                            CreateRequest(Ingredients, IngredientToJson(ingredient))]
                && store.ingredients == old(store.ingredients) + [IngredientToJson(ingredient)]
                && r == Ok(ingredient)
      ensures old(store.Valid()) ==> store.Valid()
    {
      var existing := GetIngredient(ingredient.id);
      if existing.Err? {
        return Err(existing.error);
      }
      if existing.value.Some? {
        return Err(Error(DuplicateIngredientMessage(ingredient.id)));
      }
      ghost var before := store.ingredients;
      var created := CreateRequest(Ingredients, IngredientToJson(ingredient));
      var resp := store.Fetch(created);
      IngredientRoundTrip(ingredient);
      r := Validated(ParseIngredient(resp.body));
      if old(store.Valid()) {
        ServeKeepsUniqueIds(before, created);
      }
    }

    /** deleteIngredient: the delete is passed through and the store's raw
        response body returned, without validation. */
    method DeleteIngredient(id: string) returns (r: Json)
      modifies store
      ensures store.requests == old(store.requests) + [ItemRequest(Delete, Ingredients, id)]
      ensures store.recipes == old(store.recipes)
      ensures (store.ingredients, r) == (Serve(old(store.ingredients), ItemRequest(Delete, Ingredients, id)).0,
                                        Serve(old(store.ingredients), ItemRequest(Delete, Ingredients, id)).1.body)
      ensures Find(store.ingredients, id).None?
      ensures forall x :: x in store.ingredients <==> x in old(store.ingredients) && RecordId(x) != Some(id)
      ensures old(Find(store.ingredients, id)).Some? ==> r == old(Find(store.ingredients, id)).value
      ensures old(Find(store.ingredients, id)).None? ==> r == EmptyObject
      ensures old(store.Valid()) ==> store.Valid()
    {
      var resp := store.Fetch(ItemRequest(Delete, Ingredients, id));
      r := resp.body;
      if old(store.Valid()) {
        ServeKeepsUniqueIds(old(store.ingredients), ItemRequest(Delete, Ingredients, id));
      }
    }

    /** updateIngredient: the update without its id is sent to the item
        route of its id and the store's raw response body returned. */
    method UpdateIngredient(u: IngredientUpdateWithQuantity) returns (r: Json)
      modifies store
      ensures store.requests == old(store.requests) + [UpdateIngredientRequest(u)]
      ensures store.recipes == old(store.recipes)
      ensures (store.ingredients, r) == (Serve(old(store.ingredients), UpdateIngredientRequest(u)).0,
                                        Serve(old(store.ingredients), UpdateIngredientRequest(u)).1.body)
      ensures old(Find(store.ingredients, u.id)).Some? ==>
                Find(store.ingredients, u.id) == Some(Merge(old(Find(store.ingredients, u.id)).value, IngredientPatchBody(u)))
      ensures old(store.Valid()) ==> store.Valid()
    {
      var req := UpdateIngredientRequest(u);
      var resp := store.Fetch(req);
      r := resp.body;
      FindPatched(old(store.ingredients), u.id, IngredientPatchBody(u));
      if old(store.Valid()) {
        ServeKeepsUniqueIds(old(store.ingredients), req);
      }
    }

    /** getRecipeList. */
    method GetRecipeList() returns (r: Result<seq<Recipe>, Failure>)
      modifies store
      ensures store.requests == old(store.requests) + [ListRequest(Recipes)]
      ensures store.ingredients == old(store.ingredients) && store.recipes == old(store.recipes)
      ensures r == RecipeListing(store.recipes)
      ensures r.Ok? <==> forall k :: 0 <= k < |store.recipes| ==> IsRecipe(store.recipes[k])
      ensures r.Ok? ==> |r.value| == |store.recipes|
                        && forall k :: 0 <= k < |r.value| ==> ParseRecipe(store.recipes[k]) == Ok(r.value[k])
      ensures r.Err? ==> r.error.SchemaViolation?
    {
      var resp := store.Fetch(ListRequest(Recipes));
      r := RecipeListFromResponse(resp);
    }

    /** getRecipe. */
    method GetRecipe(id: string) returns (r: Result<Option<Recipe>, Failure>)
      modifies store
      ensures store.requests == old(store.requests) + [ItemRequest(Get, Recipes, id)]
      ensures store.ingredients == old(store.ingredients) && store.recipes == old(store.recipes)
      ensures r == RecipeLookup(store.recipes, id)
      ensures Find(store.recipes, id).None? ==> r == Ok(None)
      ensures Find(store.recipes, id).Some? ==>
                && (r.Ok? <==> IsRecipe(Find(store.recipes, id).value))
                && (r.Ok? ==> r.value == Some(ParseRecipe(Find(store.recipes, id).value).value))
      ensures r.Err? ==> r.error.SchemaViolation?
    {
      var resp := store.Fetch(ItemRequest(Get, Recipes, id));
      r := RecipeFromResponse(resp);
    }

    /** addRecipe. */
    method AddRecipe(recipe: Recipe) returns (r: Result<Recipe, Failure>)
      modifies store
      ensures store.ingredients == old(store.ingredients)
      ensures old(Find(store.recipes, recipe.id)).Some? ==>
                && store.requests == old(store.requests) + [ItemRequest(Get, Recipes, recipe.id)]
                && store.recipes == old(store.recipes)
                && r.Err?
      ensures old(Find(store.recipes, recipe.id)).Some? && IsRecipe(old(Find(store.recipes, recipe.id)).value) ==>
                r == Err(Error(DuplicateRecipeMessage(recipe.id)))
      ensures old(Find(store.recipes, recipe.id)).Some? && !IsRecipe(old(Find(store.recipes, recipe.id)).value) ==>
                r == Err(SchemaViolation(ParseRecipe(old(Find(store.recipes, recipe.id)).value).error))
      ensures old(Find(store.recipes, recipe.id)).None? ==>
                && store.requests == old(store.requests) + [ItemRequest(Get, Recipes, recipe.id),
                                                            CreateRequest(Recipes, RecipeToJson(recipe))]
                && store.recipes == old(store.recipes) + [RecipeToJson(recipe)]
                && r == Ok(recipe)
      ensures old(store.Valid()) ==> store.Valid()
    {
      var existing := GetRecipe(recipe.id);
      if existing.Err? {
        return Err(existing.error);
      }
      if existing.value.Some? {
        return Err(Error(DuplicateRecipeMessage(recipe.id)));
      }
      ghost var before := store.recipes;
      var created := CreateRequest(Recipes, RecipeToJson(recipe));
      var resp := store.Fetch(created);
      RecipeRoundTrip(recipe);
      r := Validated(ParseRecipe(resp.body));
      if old(store.Valid()) {
        ServeKeepsUniqueIds(before, created);
      }
    }

    /** deleteRecipe. */
    method DeleteRecipe(id: string) returns (r: Json)
      modifies store
      ensures store.requests == old(store.requests) + [ItemRequest(Delete, Recipes, id)]
      ensures store.ingredients == old(store.ingredients)
      ensures (store.recipes, r) == (Serve(old(store.recipes), ItemRequest(Delete, Recipes, id)).0,
                                    Serve(old(store.recipes), ItemRequest(Delete, Recipes, id)).1.body)
      ensures Find(store.recipes, id).None?
      ensures forall x :: x in store.recipes <==> x in old(store.recipes) && RecordId(x) != Some(id)
      ensures old(Find(store.recipes, id)).Some? ==> r == old(Find(store.recipes, id)).value
      ensures old(Find(store.recipes, id)).None? ==> r == EmptyObject
      ensures old(store.Valid()) ==> store.Valid()
    {
      var resp := store.Fetch(ItemRequest(Delete, Recipes, id));
      r := resp.body;
      if old(store.Valid()) {
        ServeKeepsUniqueIds(old(store.recipes), ItemRequest(Delete, Recipes, id));
      }
    }

    /** updateRecipe. */
    method UpdateRecipe(u: RecipeUpdate) returns (r: Json)
      modifies store
      ensures store.requests == old(store.requests) + [UpdateRecipeRequest(u)]
      ensures store.ingredients == old(store.ingredients)
      ensures (store.recipes, r) == (Serve(old(store.recipes), UpdateRecipeRequest(u)).0,
                                    Serve(old(store.recipes), UpdateRecipeRequest(u)).1.body)
      ensures old(Find(store.recipes, u.id)).Some? ==>
                Find(store.recipes, u.id) == Some(Merge(old(Find(store.recipes, u.id)).value, RecipePatchBody(u)))
      ensures old(store.Valid()) ==> store.Valid()
    {
      var req := UpdateRecipeRequest(u);
      var resp := store.Fetch(req);
      r := resp.body;
      FindPatched(old(store.recipes), u.id, RecipePatchBody(u));
      if old(store.Valid()) {
        ServeKeepsUniqueIds(old(store.recipes), req);
      }
    }
  }
}
