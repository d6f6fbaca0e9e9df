/** The resources of src/mcp/resources.ts: for ingredients and for recipes,
    a collection resource that returns the whole listing, and a resource
    template `<prefix>{id}` with enumeration (`list`), completion of the
    `id` placeholder (`complete.id`) and a single-item read.

    Each handler is a function of the outcome of the backend call it awaits
    (a listing or a lookup, failures included, which a handler passes on
    unchanged) and of the request's own inputs. `JSON.stringify` is the
    parameter `stringify`: the model does not say what text it produces,
    only which JSON value it is applied to. */
module Resources {
  import opened Wrappers
  import opened Json
  import opened Text
  import opened Schema
  import opened Store
  import opened Api

  const JsonMimeType := "application/json"

  const IngredientsUri := "meal-planner://ingredients"
  /** The fixed part of the template `meal-planner://ingredients/{id}`. */
  const IngredientUriPrefix := "meal-planner://ingredients/"

  const RecipesUri := "meal-planner://recipes"
  /** The fixed part of the template `meal-planner://recipes/{id}`. */
  const RecipeUriPrefix := "meal-planner://recipes/"

  /** Each template addresses its items under the collection resource's
      uri: the template's fixed part is the collection uri and a slash, so
      an item uri names its collection and then its id. */
  lemma TemplatesExtendCollections(id: string)
    ensures IngredientUriPrefix == IngredientsUri + "/"
    ensures RecipeUriPrefix == RecipesUri + "/"
    ensures StartsWith(IngredientUriPrefix + id, IngredientsUri)
    ensures StartsWith(RecipeUriPrefix + id, RecipesUri)
    ensures IngredientUriPrefix + id != RecipesUri && RecipeUriPrefix + id != IngredientsUri
  {
    assert (IngredientUriPrefix + id)[..|IngredientsUri|] == IngredientsUri;
    assert (RecipeUriPrefix + id)[..|RecipesUri|] == RecipesUri;
    assert (IngredientUriPrefix + id)[15] == 'i' != RecipesUri[15];
    assert (RecipeUriPrefix + id)[15] == 'r' != IngredientsUri[15];
  }

  /** One item of the `contents` of a read result. */
  datatype Content = Content(mimeType: string, text: string, uri: string)

  /** One item of the `resources` of a template's enumeration. */
  datatype ListedResource = ListedResource(uri: string, name: string, title: string, mimeType: string)

  // ----- Ingredients -----

  /** Reading `meal-planner://ingredients`: the whole listing as a single
      JSON content item for the requested uri. The serialised value is the
      listing's JSON form, which validates back to exactly the listing. */
  function ReadIngredients(uri: string, listing: Result<seq<Ingredient>, Failure>, stringify: Json -> string)
    : (r: Result<seq<Content>, Failure>)
    ensures listing.Err? ==> r == Err(listing.error)
    ensures listing.Ok? ==> && r.Ok? && |r.value| == 1
                            && r.value[0].mimeType == JsonMimeType && r.value[0].uri == uri
                            && r.value[0].text == stringify(IngredientListToJson(listing.value))
                            && ParseIngredientList(IngredientListToJson(listing.value)) == Ok(listing.value)
  {
    match listing
    case Err(e) => Err(e)
    case Ok(list) =>
      IngredientListRoundTrip(list);
      Ok([Content(JsonMimeType, stringify(IngredientListToJson(list)), uri)])
  }

  /** The template's `list`: one resource per ingredient, in listing order,
      addressed by the template with the ingredient's id and titled with its
      name. */
  function ListIngredientResources(listing: Result<seq<Ingredient>, Failure>): (r: Result<seq<ListedResource>, Failure>)
    ensures listing.Err? ==> r == Err(listing.error)
    ensures listing.Ok? ==> && r.Ok? && |r.value| == |listing.value|
                            && forall k :: 0 <= k < |listing.value| ==>
                                 r.value[k] == ListedResource(IngredientUriPrefix + listing.value[k].id,
                                                              listing.value[k].name, listing.value[k].name, JsonMimeType)
  {
    match listing
    case Err(e) => Err(e)
    case Ok(list) =>
      Ok(seq(|list|, k requires 0 <= k < |list| =>
        ListedResource(IngredientUriPrefix + list[k].id, list[k].name, list[k].name, JsonMimeType)))
  }

  /** Enumerated uris tell their ingredients apart: each one is the template
      prefix followed by the id, and two ingredients with different ids get
      different uris. */
  lemma ListedIngredientUris(list: seq<Ingredient>, k: nat, l: nat)
    requires k < |list| && l < |list|
    ensures var listed := ListIngredientResources(Ok(list)).value;
            && StartsWith(listed[k].uri, IngredientUriPrefix)
            && listed[k].uri[|IngredientUriPrefix|..] == list[k].id
            && (list[k].id != list[l].id ==> listed[k].uri != listed[l].uri)
  {
    var listed := ListIngredientResources(Ok(list)).value;
    assert listed[k].uri == IngredientUriPrefix + list[k].id;
    if list[k].id != list[l].id {
      PrefixInjective(IngredientUriPrefix, list[k].id, list[l].id);
    }
  }

  /** `complete.id`: the ids of the current listing that include the
      partial value, in listing order; an empty value completes to every
      id. */
  function CompleteIngredientId(listing: Result<seq<Ingredient>, Failure>, value: string): (r: Result<seq<string>, Failure>)
    ensures listing.Err? ==> r == Err(listing.error)
    ensures listing.Ok? ==> && r.Ok?
                            && r.value == FilterIncludes(IngredientIds(listing.value), value)
                            && forall x :: x in r.value <==> x in IngredientIds(listing.value) && Includes(x, value)
    ensures listing.Ok? && value == "" ==> r == Ok(IngredientIds(listing.value))
  {
    match listing
    case Err(e) => Err(e)
    case Ok(list) =>
      FilterIncludesEmpty(IngredientIds(list));
      Ok(FilterIncludes(IngredientIds(list), value))
  }

  function IngredientNotFoundMessage(id: string): (m: string)
    ensures Includes(m, id)
  {
    IncludesInfix("Ingredient with id ", id, " not found");
    "Ingredient with id " + id + " not found"
  }

  /** Reading `meal-planner://ingredients/{id}`: an absent ingredient fails
      with a message that names the id; a present one is returned as one
      JSON content item for the requested uri. */
  function ReadIngredient(uri: string, id: string, lookup: Result<Option<Ingredient>, Failure>, stringify: Json -> string)
    : (r: Result<seq<Content>, Failure>)
    ensures lookup.Err? ==> r == Err(lookup.error)
    ensures lookup == Ok(None) ==> r == Err(Error(IngredientNotFoundMessage(id)))
    ensures lookup.Ok? && lookup.value.Some? ==>
              && r.Ok? && |r.value| == 1
              && r.value[0].mimeType == JsonMimeType && r.value[0].uri == uri
              && r.value[0].text == stringify(IngredientToJson(lookup.value.value))
  {
    match lookup
    case Err(e) => Err(e)
    case Ok(None) => Err(Error(IngredientNotFoundMessage(id)))
    case Ok(Some(ingredient)) => Ok([Content(JsonMimeType, stringify(IngredientToJson(ingredient)), uri)])
  }

  // ----- Recipes -----

  /** Reading `meal-planner://recipes`. */
  function ReadRecipes(uri: string, listing: Result<seq<Recipe>, Failure>, stringify: Json -> string)
    : (r: Result<seq<Content>, Failure>)
    ensures listing.Err? ==> r == Err(listing.error)
    ensures listing.Ok? ==> && r.Ok? && |r.value| == 1
                            && r.value[0].mimeType == JsonMimeType && r.value[0].uri == uri
                            && r.value[0].text == stringify(RecipeListToJson(listing.value))
                            && ParseRecipeList(RecipeListToJson(listing.value)) == Ok(listing.value)
  {
    match listing
    case Err(e) => Err(e)
    case Ok(list) =>
      RecipeListRoundTrip(list);
      Ok([Content(JsonMimeType, stringify(RecipeListToJson(list)), uri)])
  }

  /** The recipe template's `list`. */
  function ListRecipeResources(listing: Result<seq<Recipe>, Failure>): (r: Result<seq<ListedResource>, Failure>)
    ensures listing.Err? ==> r == Err(listing.error)
    ensures listing.Ok? ==> && r.Ok? && |r.value| == |listing.value|
                            && forall k :: 0 <= k < |listing.value| ==>
                                 r.value[k] == ListedResource(RecipeUriPrefix + listing.value[k].id,
                                                              listing.value[k].name, listing.value[k].name, JsonMimeType)
  {
    match listing
    case Err(e) => Err(e)
    case Ok(list) =>
      Ok(seq(|list|, k requires 0 <= k < |list| =>
        ListedResource(RecipeUriPrefix + list[k].id, list[k].name, list[k].name, JsonMimeType)))
  }

  lemma ListedRecipeUris(list: seq<Recipe>, k: nat, l: nat)
    requires k < |list| && l < |list|
    ensures var listed := ListRecipeResources(Ok(list)).value;
            && StartsWith(listed[k].uri, RecipeUriPrefix)
            && listed[k].uri[|RecipeUriPrefix|..] == list[k].id
            && (list[k].id != list[l].id ==> listed[k].uri != listed[l].uri)
  {
    var listed := ListRecipeResources(Ok(list)).value;
    assert listed[k].uri == RecipeUriPrefix + list[k].id;
    if list[k].id != list[l].id {
      PrefixInjective(RecipeUriPrefix, list[k].id, list[l].id);
    }
  }

  /** The recipe template's `complete.id`. */
  function CompleteRecipeId(listing: Result<seq<Recipe>, Failure>, value: string): (r: Result<seq<string>, Failure>)
    ensures listing.Err? ==> r == Err(listing.error)
    ensures listing.Ok? ==> && r.Ok?
                            && r.value == FilterIncludes(RecipeIds(listing.value), value)
                            && forall x :: x in r.value <==> x in RecipeIds(listing.value) && Includes(x, value)
    ensures listing.Ok? && value == "" ==> r == Ok(RecipeIds(listing.value))
  {
    match listing
    case Err(e) => Err(e)
    case Ok(list) =>
      FilterIncludesEmpty(RecipeIds(list));
      Ok(FilterIncludes(RecipeIds(list), value))
  }

  function RecipeNotFoundMessage(id: string): (m: string)
    ensures Includes(m, id)
  {
    IncludesInfix("Recipe with id ", id, " not found");
    "Recipe with id " + id + " not found"
  }

  /** Reading `meal-planner://recipes/{id}`. */
  function ReadRecipe(uri: string, id: string, lookup: Result<Option<Recipe>, Failure>, stringify: Json -> string)
    : (r: Result<seq<Content>, Failure>)
    ensures lookup.Err? ==> r == Err(lookup.error)
    ensures lookup == Ok(None) ==> r == Err(Error(RecipeNotFoundMessage(id)))
    ensures lookup.Ok? && lookup.value.Some? ==>
              && r.Ok? && |r.value| == 1
              && r.value[0].mimeType == JsonMimeType && r.value[0].uri == uri
              && r.value[0].text == stringify(RecipeToJson(lookup.value.value))
  {
    match lookup
    case Err(e) => Err(e)
    case Ok(None) => Err(Error(RecipeNotFoundMessage(id)))
    case Ok(Some(recipe)) => Ok([Content(JsonMimeType, stringify(RecipeToJson(recipe)), uri)])
  }

  // ----- The handlers, over the client -----

  /** Every handler makes exactly one read of the backend and changes
      nothing in it; its result is the function above applied to what that
      read yields. */

  method HandleReadIngredients(client: Client, uri: string, stringify: Json -> string) returns (r: Result<seq<Content>, Failure>)
    modifies client.store
    ensures client.store.requests == old(client.store.requests) + [ListRequest(Store.Ingredients)]
    ensures client.store.ingredients == old(client.store.ingredients) && client.store.recipes == old(client.store.recipes)
    ensures r == ReadIngredients(uri, IngredientListing(client.store.ingredients), stringify)
  {
    var listing := client.GetIngredientList();
    r := ReadIngredients(uri, listing, stringify);
  }

  method HandleListIngredients(client: Client) returns (r: Result<seq<ListedResource>, Failure>)
    modifies client.store
    ensures client.store.requests == old(client.store.requests) + [ListRequest(Store.Ingredients)]
    ensures client.store.ingredients == old(client.store.ingredients) && client.store.recipes == old(client.store.recipes)
    ensures r == ListIngredientResources(IngredientListing(client.store.ingredients))
  {
    var listing := client.GetIngredientList();
    r := ListIngredientResources(listing);
  }

  method HandleCompleteIngredientId(client: Client, value: string) returns (r: Result<seq<string>, Failure>)
    modifies client.store
    ensures client.store.requests == old(client.store.requests) + [ListRequest(Store.Ingredients)]
    ensures client.store.ingredients == old(client.store.ingredients) && client.store.recipes == old(client.store.recipes)
    ensures r == CompleteIngredientId(IngredientListing(client.store.ingredients), value)
  {
    var listing := client.GetIngredientList();
    r := CompleteIngredientId(listing, value);
  }

  method HandleReadIngredient(client: Client, uri: string, id: string, stringify: Json -> string) returns (r: Result<seq<Content>, Failure>)
    modifies client.store
    ensures client.store.requests == old(client.store.requests) + [ItemRequest(Get, Store.Ingredients, id)]
    ensures client.store.ingredients == old(client.store.ingredients) && client.store.recipes == old(client.store.recipes)
    ensures r == ReadIngredient(uri, id, IngredientLookup(client.store.ingredients, id), stringify)
  {
    var lookup := client.GetIngredient(id);
    r := ReadIngredient(uri, id, lookup, stringify);
  }

  method HandleReadRecipes(client: Client, uri: string, stringify: Json -> string) returns (r: Result<seq<Content>, Failure>)
    modifies client.store
    ensures client.store.requests == old(client.store.requests) + [ListRequest(Store.Recipes)]
    ensures client.store.ingredients == old(client.store.ingredients) && client.store.recipes == old(client.store.recipes)
    ensures r == ReadRecipes(uri, RecipeListing(client.store.recipes), stringify)
  {
    var listing := client.GetRecipeList();
    r := ReadRecipes(uri, listing, stringify);
  }

  method HandleListRecipes(client: Client) returns (r: Result<seq<ListedResource>, Failure>)
    modifies client.store
    ensures client.store.requests == old(client.store.requests) + [ListRequest(Store.Recipes)]
    ensures client.store.ingredients == old(client.store.ingredients) && client.store.recipes == old(client.store.recipes)
    ensures r == ListRecipeResources(RecipeListing(client.store.recipes))
  {
    var listing := client.GetRecipeList();
    r := ListRecipeResources(listing);
  }

  method HandleCompleteRecipeId(client: Client, value: string) returns (r: Result<seq<string>, Failure>)
    modifies client.store
    ensures client.store.requests == old(client.store.requests) + [ListRequest(Store.Recipes)]
    ensures client.store.ingredients == old(client.store.ingredients) && client.store.recipes == old(client.store.recipes)
    ensures r == CompleteRecipeId(RecipeListing(client.store.recipes), value)
  {
    var listing := client.GetRecipeList();
    r := CompleteRecipeId(listing, value);
  }

  method HandleReadRecipe(client: Client, uri: string, id: string, stringify: Json -> string) returns (r: Result<seq<Content>, Failure>)
    modifies client.store
    ensures client.store.requests == old(client.store.requests) + [ItemRequest(Get, Store.Recipes, id)]
    ensures client.store.ingredients == old(client.store.ingredients) && client.store.recipes == old(client.store.recipes)
    ensures r == ReadRecipe(uri, id, RecipeLookup(client.store.recipes, id), stringify)
  {
    var lookup := client.GetRecipe(id);
    r := ReadRecipe(uri, id, lookup, stringify);
  }
}
