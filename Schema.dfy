/** The domain schemas of src/db/schema.ts: Ingredient, Recipe, the entries
    of a recipe's ingredient list, the list forms and the two update forms.
    Each schema is a validity predicate over raw JSON (what the schema
    accepts), a parser that yields the typed value or the first issue it
    finds, and, for the forms the adapter sends, an encoder back to JSON.
    Like the schemas they model, the predicates look only at the keys the
    schema names: any other member is allowed and dropped by the parser. */
module Schema {
  import opened Wrappers
  import opened Json

  // ----- Units -----

  datatype Unit = Kg | Pcs | G | Ml | L

  /** The JSON spelling of a unit; `ParseUnit` reads it back. */
  function UnitName(u: Unit): (s: string)
    ensures ParseUnit(s) == Some(u)
  {
    match u
    case Kg => "kg"
    case Pcs => "pcs"
    case G => "g"
    case Ml => "ml"
    case L => "l"
  }

  /** The unit enumeration: exactly the five spellings are accepted. */
  function ParseUnit(s: string): (r: Option<Unit>)
    ensures r.Some? <==> s == "kg" || s == "pcs" || s == "g" || s == "ml" || s == "l"
  {
    if s == "kg" then Some(Kg)
    else if s == "pcs" then Some(Pcs)
    else if s == "g" then Some(G)
    else if s == "ml" then Some(Ml)
    else if s == "l" then Some(L)
    else None
  }

  /** A unit is read back only from its own spelling. */
  lemma ParseUnitInverts(s: string)
    ensures ParseUnit(s).Some? ==> UnitName(ParseUnit(s).value) == s
  {
  }

  // ----- Validation issues -----

  datatype PathSegment = Key(name: string) | Index(position: nat)

  /** A rejection: the path from the validated value down to the first part
      that does not conform (the empty path when the value itself has the
      wrong shape). */
  datatype Issue = Issue(path: seq<PathSegment>)

  /** An issue found inside the member or element `segment`. */
  function Under(segment: PathSegment, issue: Issue): Issue {
    Issue([segment] + issue.path)
  }

  // ----- Member checks -----

  /** A required string member. */
  predicate StringAt(j: Json, key: string) {
    j.JObject? && key in j.fields && j.fields[key].JString?
  }

  /** An optional string member: absent, or present and a string. */
  predicate OptionalStringAt(j: Json, key: string) {
    j.JObject? && (key !in j.fields || j.fields[key].JString?)
  }

  /** An optional number member: absent, or present and a number. */
  predicate OptionalNumberAt(j: Json, key: string) {
    j.JObject? && (key !in j.fields || j.fields[key].JNumber?)
  }

  /** A required member holding one of the unit spellings. */
  predicate UnitAt(j: Json, key: string) {
    StringAt(j, key) && ParseUnit(j.fields[key].str).Some?
  }

  /** The optional member `key` of `j` carries exactly `v`. */
  predicate OptionalStringIs(j: Json, key: string, v: Option<string>)
    requires j.JObject?
  {
    (v.Some? <==> key in j.fields) && (v.Some? ==> j.fields[key] == JString(v.value))
  }

  function OptionalString(j: Json, key: string): (v: Option<string>)
    requires OptionalStringAt(j, key)
    ensures OptionalStringIs(j, key, v)
  {
    if key in j.fields then Some(j.fields[key].str) else None
  }

  /** The members of an object whose values are present in `v`. */
  function OptionalMember(key: string, v: Option<Json>): map<string, Json> {
    if v.Some? then map[key := v.value] else map[]
  }

  function OptionalStringJson(v: Option<string>): Option<Json> {
    if v.Some? then Some(JString(v.value)) else None
  }

  // ----- Element-wise parsing of arrays -----

  /** `issue` reports the first element `p` of `items` that `parse` rejects:
      the path starts at index `p`, continues with the element's own issue,
      and every element before `p` is accepted. */
  ghost predicate FirstRejected<T>(items: seq<Json>, parse: Json -> Result<T, Issue>, issue: Issue) {
    |issue.path| > 0 && issue.path[0].Index? && issue.path[0].position < |items|
    && parse(items[issue.path[0].position]) == Err(Issue(issue.path[1..]))
    && forall i :: 0 <= i < issue.path[0].position ==> parse(items[i]).Ok?
  }

  /** `z.array(schema)` applied to the elements of an array: the array is
      accepted iff every element is, and then the result holds the parsed
      elements in order. */
  function ParseEach<T>(items: seq<Json>, parse: Json -> Result<T, Issue>): (r: Result<seq<T>, Issue>)
    ensures r.Ok? <==> forall i :: 0 <= i < |items| ==> parse(items[i]).Ok?
    ensures r.Ok? ==> |r.value| == |items| && forall i :: 0 <= i < |items| ==> parse(items[i]) == Ok(r.value[i])
    ensures r.Err? ==> FirstRejected(items, parse, r.error)
  {
    if items == [] then Ok([])
    else
      var n := |items| - 1;
      assert forall i :: 0 <= i < n ==> items[..n][i] == items[i];
      match ParseEach(items[..n], parse)
      case Err(e) => Err(e)
      case Ok(vs) =>
        match parse(items[n])
        case Err(e) => Err(Under(Index(n), e))
        case Ok(v) => Ok(vs + [v])
  }

  // ----- Ingredient (src/db/schema.ts lines 3-7) -----

  datatype Ingredient = Ingredient(id: string, name: string, unit: Unit)

  /** `IngredientSchema`: strings `id` and `name`, and a `unit` from the
      enumeration. */
  predicate IsIngredient(j: Json) {
    j.JObject? && StringAt(j, "id") && StringAt(j, "name") && UnitAt(j, "unit")
  }

  /** The member `key` of `j` is the first member, in the schema's order
      `id`, `name`, `unit`, that fails its check. */
  predicate IngredientMemberRejected(j: Json, key: string) {
    (key == "id" && !StringAt(j, "id"))
    || (key == "name" && StringAt(j, "id") && !StringAt(j, "name"))
    || (key == "unit" && StringAt(j, "id") && StringAt(j, "name") && !UnitAt(j, "unit"))
  }

  function IngredientToJson(i: Ingredient): Json {
    JObject(map["id" := JString(i.id), "name" := JString(i.name), "unit" := JString(UnitName(i.unit))])
  }

  function ParseIngredient(j: Json): (r: Result<Ingredient, Issue>)
    ensures r.Ok? <==> IsIngredient(j)
    ensures r.Ok? ==> j.fields["id"] == JString(r.value.id) && j.fields["name"] == JString(r.value.name)
                      && j.fields["unit"] == JString(UnitName(r.value.unit))
    ensures r.Err? && !j.JObject? ==> r.error.path == []
    ensures r.Err? && j.JObject? ==>
              |r.error.path| == 1 && r.error.path[0].Key? && IngredientMemberRejected(j, r.error.path[0].name)
  {
    if !j.JObject? then Err(Issue([]))
    else if !StringAt(j, "id") then Err(Issue([Key("id")]))
    else if !StringAt(j, "name") then Err(Issue([Key("name")]))
    else if !UnitAt(j, "unit") then Err(Issue([Key("unit")]))
    else Ok(Ingredient(j.fields["id"].str, j.fields["name"].str, ParseUnit(j.fields["unit"].str).value))
  }

  /** What is encoded is valid and parses back to itself. */
  lemma IngredientRoundTrip(i: Ingredient)
    ensures IsIngredient(IngredientToJson(i))
    ensures ParseIngredient(IngredientToJson(i)) == Ok(i)
  {
  }

  // ----- Ingredient list (line 9) -----

  /** `IngredientListSchema`: an array all of whose elements are ingredients. */
  predicate IsIngredientList(j: Json) {
    j.JArray? && forall i :: 0 <= i < |j.items| ==> IsIngredient(j.items[i])
  }

  function IngredientListToJson(list: seq<Ingredient>): (j: Json)
    ensures j.JArray? && |j.items| == |list|
    ensures forall i :: 0 <= i < |list| ==> j.items[i] == IngredientToJson(list[i])
  {
    JArray(seq(|list|, k requires 0 <= k < |list| => IngredientToJson(list[k])))
  }

  /** One element that is not an ingredient rejects the whole list, and the
      issue points at the first such element. */
  function ParseIngredientList(j: Json): (r: Result<seq<Ingredient>, Issue>)
    ensures r.Ok? <==> IsIngredientList(j)
    ensures r.Ok? ==> |r.value| == |j.items|
                      && forall i :: 0 <= i < |j.items| ==> ParseIngredient(j.items[i]) == Ok(r.value[i])
    ensures r.Err? && !j.JArray? ==> r.error.path == []
    ensures r.Err? && j.JArray? ==> FirstRejected(j.items, ParseIngredient, r.error)
  {
    if j.JArray? then ParseEach(j.items, ParseIngredient) else Err(Issue([]))
  }

  /** The ids of a listing, in listing order: `list.map((x) => x.id)`. */
  function IngredientIds(list: seq<Ingredient>): (ids: seq<string>)
    ensures |ids| == |list| && forall k :: 0 <= k < |list| ==> ids[k] == list[k].id
  {
    seq(|list|, k requires 0 <= k < |list| => list[k].id)
  }

  lemma IngredientListRoundTrip(list: seq<Ingredient>)
    ensures IsIngredientList(IngredientListToJson(list))
    ensures ParseIngredientList(IngredientListToJson(list)) == Ok(list)
  {
    var j := IngredientListToJson(list);
    forall i | 0 <= i < |list| ensures ParseIngredient(j.items[i]) == Ok(list[i]) {
      IngredientRoundTrip(list[i]);
    }
    var r := ParseIngredientList(j);
    assert forall i :: 0 <= i < |list| ==> r.value[i] == list[i];
    assert r.value == list;
  }

  // ----- Ingredient update (lines 11-15) -----

  datatype IngredientUpdate = IngredientUpdate(id: string, name: Option<string>, unit: Option<string>)

  /** `UpdateIngredientSchema`: a string `id`, an optional string `name`, and
      an optional `unit` that may be any string. */
  predicate IsIngredientUpdate(j: Json) {
    j.JObject? && StringAt(j, "id") && OptionalStringAt(j, "name") && OptionalStringAt(j, "unit")
  }

  /** The member `key` of `j` is the first member, in the schema's order
      `id`, `name`, `unit`, that fails its check. */
  predicate IngredientUpdateMemberRejected(j: Json, key: string) {
    (key == "id" && !StringAt(j, "id"))
    || (key == "name" && StringAt(j, "id") && !OptionalStringAt(j, "name"))
    || (key == "unit" && StringAt(j, "id") && OptionalStringAt(j, "name") && !OptionalStringAt(j, "unit"))
  }

  function ParseIngredientUpdate(j: Json): (r: Result<IngredientUpdate, Issue>)
    ensures r.Ok? <==> IsIngredientUpdate(j)
    ensures r.Ok? ==> j.fields["id"] == JString(r.value.id)
                      && OptionalStringIs(j, "name", r.value.name) && OptionalStringIs(j, "unit", r.value.unit)
    ensures r.Err? && !j.JObject? ==> r.error.path == []
    ensures r.Err? && j.JObject? ==>
              |r.error.path| == 1 && r.error.path[0].Key? && IngredientUpdateMemberRejected(j, r.error.path[0].name)
  {
    if !j.JObject? then Err(Issue([]))
    else if !StringAt(j, "id") then Err(Issue([Key("id")]))
    else if !OptionalStringAt(j, "name") then Err(Issue([Key("name")]))
    else if !OptionalStringAt(j, "unit") then Err(Issue([Key("unit")]))
    else Ok(IngredientUpdate(j.fields["id"].str, OptionalString(j, "name"), OptionalString(j, "unit")))
  }

  /** Every ingredient is also an ingredient update, one that sets both the
      name and the unit. */
  lemma IngredientIsUpdate(j: Json)
    requires IsIngredient(j)
    ensures IsIngredientUpdate(j)
    ensures var i := ParseIngredient(j).value;
            ParseIngredientUpdate(j) == Ok(IngredientUpdate(i.id, Some(i.name), Some(UnitName(i.unit))))
  {
  }

  /** An update needs nothing but the id, which an ingredient does not
      accept. */
  lemma UpdateNeedsOnlyId(id: string)
    ensures IsIngredientUpdate(JObject(map["id" := JString(id)]))
    ensures ParseIngredientUpdate(JObject(map["id" := JString(id)])) == Ok(IngredientUpdate(id, None, None))
    ensures !IsIngredient(JObject(map["id" := JString(id)]))
  {
  }

  /** The update form takes any string as a unit; the same object with a unit
      outside the enumeration is not an ingredient. */
  lemma UpdateUnitIsFreeForm(id: string, name: string, unit: string)
    requires ParseUnit(unit).None?
    ensures IsIngredientUpdate(JObject(map["id" := JString(id), "name" := JString(name), "unit" := JString(unit)]))
    ensures !IsIngredient(JObject(map["id" := JString(id), "name" := JString(name), "unit" := JString(unit)]))
  {
  }

  // ----- Recipe ingredient entry (lines 17-20) -----

  datatype RecipeIngredient = RecipeIngredient(id: string, quantity: Option<real>)

  /** `RecepeIngredientSchema`: a string `id` and an optional number
      `quantity`. */
  predicate IsRecipeIngredient(j: Json) {
    j.JObject? && StringAt(j, "id") && OptionalNumberAt(j, "quantity")
  }

  function RecipeIngredientToJson(e: RecipeIngredient): Json {
    JObject(map["id" := JString(e.id)] + OptionalMember("quantity", if e.quantity.Some? then Some(JNumber(e.quantity.value)) else None))
  }

  function ParseRecipeIngredient(j: Json): (r: Result<RecipeIngredient, Issue>)
    ensures r.Ok? <==> IsRecipeIngredient(j)
    ensures r.Ok? ==> j.fields["id"] == JString(r.value.id)
                      && (r.value.quantity.Some? <==> "quantity" in j.fields)
                      && (r.value.quantity.Some? ==> j.fields["quantity"] == JNumber(r.value.quantity.value))
    ensures r.Err? && !j.JObject? ==> r.error.path == []
    ensures r.Err? && j.JObject? ==>
              (r.error.path == [Key("id")] && !StringAt(j, "id"))
              || (r.error.path == [Key("quantity")] && StringAt(j, "id") && !OptionalNumberAt(j, "quantity"))
  {
    if !j.JObject? then Err(Issue([]))
    else if !StringAt(j, "id") then Err(Issue([Key("id")]))
    else if !OptionalNumberAt(j, "quantity") then Err(Issue([Key("quantity")]))
    else Ok(RecipeIngredient(j.fields["id"].str, if "quantity" in j.fields then Some(j.fields["quantity"].n) else None))
  }

  lemma RecipeIngredientRoundTrip(e: RecipeIngredient)
    ensures ParseRecipeIngredient(RecipeIngredientToJson(e)) == Ok(e)
  {
  }

  /** `z.array(RecepeIngredientSchema)`, the form of a recipe's ingredient
      list; the empty array is accepted. */
  predicate IsRecipeIngredientList(v: Json) {
    v.JArray? && forall i :: 0 <= i < |v.items| ==> IsRecipeIngredient(v.items[i])
  }

  function RecipeIngredientListToJson(entries: seq<RecipeIngredient>): (v: Json)
    ensures v.JArray? && |v.items| == |entries|
    ensures forall i :: 0 <= i < |entries| ==> v.items[i] == RecipeIngredientToJson(entries[i])
  {
    JArray(seq(|entries|, k requires 0 <= k < |entries| => RecipeIngredientToJson(entries[k])))
  }

  function ParseRecipeIngredientList(v: Json): (r: Result<seq<RecipeIngredient>, Issue>)
    ensures r.Ok? <==> IsRecipeIngredientList(v)
    ensures r.Ok? ==> |r.value| == |v.items|
                      && forall i :: 0 <= i < |v.items| ==> ParseRecipeIngredient(v.items[i]) == Ok(r.value[i])
    ensures r.Err? && !v.JArray? ==> r.error.path == []
    ensures r.Err? && v.JArray? ==> FirstRejected(v.items, ParseRecipeIngredient, r.error)
  {
    if v.JArray? then ParseEach(v.items, ParseRecipeIngredient) else Err(Issue([]))
  }

  lemma RecipeIngredientListRoundTrip(entries: seq<RecipeIngredient>)
    ensures ParseRecipeIngredientList(RecipeIngredientListToJson(entries)) == Ok(entries)
  {
    var v := RecipeIngredientListToJson(entries);
    forall i | 0 <= i < |entries| ensures ParseRecipeIngredient(v.items[i]) == Ok(entries[i]) {
      RecipeIngredientRoundTrip(entries[i]);
    }
    var r := ParseRecipeIngredientList(v);
    assert forall i :: 0 <= i < |entries| ==> r.value[i] == entries[i];
    assert r.value == entries;
  }

  // ----- Recipe (lines 22-26) -----

  datatype Recipe = Recipe(id: string, name: string, ingredients: seq<RecipeIngredient>)

  /** `RecipeSchema`: strings `id` and `name`, and an `ingredients` array,
      possibly empty, of valid entries. */
  predicate IsRecipe(j: Json) {
    j.JObject? && StringAt(j, "id") && StringAt(j, "name")
    && "ingredients" in j.fields && IsRecipeIngredientList(j.fields["ingredients"])
  }

  function RecipeToJson(r: Recipe): Json {
    JObject(map["id" := JString(r.id), "name" := JString(r.name),
                "ingredients" := RecipeIngredientListToJson(r.ingredients)])
  }

  function ParseRecipe(j: Json): (r: Result<Recipe, Issue>)
    ensures r.Ok? <==> IsRecipe(j)
    ensures r.Ok? ==> j.fields["id"] == JString(r.value.id) && j.fields["name"] == JString(r.value.name)
                      && ParseRecipeIngredientList(j.fields["ingredients"]) == Ok(r.value.ingredients)
    ensures r.Err? && !j.JObject? ==> r.error.path == []
    ensures r.Err? && j.JObject? ==>
              (r.error.path == [Key("id")] && !StringAt(j, "id"))
              || (r.error.path == [Key("name")] && StringAt(j, "id") && !StringAt(j, "name"))
              || (|r.error.path| > 0 && r.error.path[0] == Key("ingredients") && StringAt(j, "id") && StringAt(j, "name")
                  && ("ingredients" in j.fields ==>
                        ParseRecipeIngredientList(j.fields["ingredients"]) == Err(Issue(r.error.path[1..]))))
    ensures r.Err? && j.JObject? && StringAt(j, "id") && StringAt(j, "name") && "ingredients" !in j.fields ==>
              r.error.path == [Key("ingredients")]
  {
    if !j.JObject? then Err(Issue([]))
    else if !StringAt(j, "id") then Err(Issue([Key("id")]))
    else if !StringAt(j, "name") then Err(Issue([Key("name")]))
    else if "ingredients" !in j.fields then Err(Issue([Key("ingredients")]))
    else
      match ParseRecipeIngredientList(j.fields["ingredients"])
      case Err(e) => Err(Under(Key("ingredients"), e))
      case Ok(entries) => Ok(Recipe(j.fields["id"].str, j.fields["name"].str, entries))
  }

  lemma RecipeRoundTrip(r: Recipe)
    ensures IsRecipe(RecipeToJson(r))
    ensures ParseRecipe(RecipeToJson(r)) == Ok(r)
  {
    RecipeIngredientListRoundTrip(r.ingredients);
  }

  /** A recipe may list no ingredients at all. */
  lemma RecipeMayBeEmpty(id: string, name: string)
    ensures IsRecipe(JObject(map["id" := JString(id), "name" := JString(name), "ingredients" := JArray([])]))
  {
  }

  // ----- Recipe list (line 28) -----

  /** `RecipeListSchema`: an array all of whose elements are recipes. */
  predicate IsRecipeList(j: Json) {
    j.JArray? && forall i :: 0 <= i < |j.items| ==> IsRecipe(j.items[i])
  }

  function RecipeListToJson(list: seq<Recipe>): (j: Json)
    ensures j.JArray? && |j.items| == |list|
    ensures forall i :: 0 <= i < |list| ==> j.items[i] == RecipeToJson(list[i])
  {
    JArray(seq(|list|, k requires 0 <= k < |list| => RecipeToJson(list[k])))
  }

  function ParseRecipeList(j: Json): (r: Result<seq<Recipe>, Issue>)
    ensures r.Ok? <==> IsRecipeList(j)
    ensures r.Ok? ==> |r.value| == |j.items|
                      && forall i :: 0 <= i < |j.items| ==> ParseRecipe(j.items[i]) == Ok(r.value[i])
    ensures r.Err? && !j.JArray? ==> r.error.path == []
    ensures r.Err? && j.JArray? ==> FirstRejected(j.items, ParseRecipe, r.error)
  {
    if j.JArray? then ParseEach(j.items, ParseRecipe) else Err(Issue([]))
  }

  function RecipeIds(list: seq<Recipe>): (ids: seq<string>)
    ensures |ids| == |list| && forall k :: 0 <= k < |list| ==> ids[k] == list[k].id
  {
    seq(|list|, k requires 0 <= k < |list| => list[k].id)
  }

  lemma RecipeListRoundTrip(list: seq<Recipe>)
    ensures IsRecipeList(RecipeListToJson(list))
    ensures ParseRecipeList(RecipeListToJson(list)) == Ok(list)
  {
    var j := RecipeListToJson(list);
    forall i | 0 <= i < |list| ensures ParseRecipe(j.items[i]) == Ok(list[i]) {
      RecipeRoundTrip(list[i]);
    }
    var r := ParseRecipeList(j);
    assert forall i :: 0 <= i < |list| ==> r.value[i] == list[i];
    assert r.value == list;
  }

  // ----- Recipe update (lines 30-34) -----

  datatype RecipeUpdate = RecipeUpdate(id: string, name: Option<string>, ingredients: Option<seq<RecipeIngredient>>)

  /** `UpdateRecipeSchema`: a string `id`, an optional string `name` and an
      optional ingredient list. */
  predicate IsRecipeUpdate(j: Json) {
    j.JObject? && StringAt(j, "id") && OptionalStringAt(j, "name")
    && ("ingredients" in j.fields ==> IsRecipeIngredientList(j.fields["ingredients"]))
  }

  function RecipeUpdateToJson(u: RecipeUpdate): Json {
    JObject(map["id" := JString(u.id)]
            + OptionalMember("name", OptionalStringJson(u.name))
            + OptionalMember("ingredients",
                if u.ingredients.Some? then Some(RecipeIngredientListToJson(u.ingredients.value)) else None))
  }

  function ParseRecipeUpdate(j: Json): (r: Result<RecipeUpdate, Issue>)
    ensures r.Ok? <==> IsRecipeUpdate(j)
    ensures r.Ok? ==> j.fields["id"] == JString(r.value.id) && OptionalStringIs(j, "name", r.value.name)
                      && (r.value.ingredients.Some? <==> "ingredients" in j.fields)
                      && (r.value.ingredients.Some? ==>
                            ParseRecipeIngredientList(j.fields["ingredients"]) == Ok(r.value.ingredients.value))
    ensures r.Err? && !j.JObject? ==> r.error.path == []
    ensures r.Err? && j.JObject? ==>
              (r.error.path == [Key("id")] && !StringAt(j, "id"))
              || (r.error.path == [Key("name")] && StringAt(j, "id") && !OptionalStringAt(j, "name"))
              || (|r.error.path| > 0 && r.error.path[0] == Key("ingredients") && StringAt(j, "id")
                  && OptionalStringAt(j, "name") && "ingredients" in j.fields
                  && ParseRecipeIngredientList(j.fields["ingredients"]) == Err(Issue(r.error.path[1..])))
  {
    if !j.JObject? then Err(Issue([]))
    else if !StringAt(j, "id") then Err(Issue([Key("id")]))
    else if !OptionalStringAt(j, "name") then Err(Issue([Key("name")]))
    else if "ingredients" !in j.fields then Ok(RecipeUpdate(j.fields["id"].str, OptionalString(j, "name"), None))
    else
      match ParseRecipeIngredientList(j.fields["ingredients"])
      case Err(e) => Err(Under(Key("ingredients"), e))
      case Ok(entries) => Ok(RecipeUpdate(j.fields["id"].str, OptionalString(j, "name"), Some(entries)))
  }

  lemma RecipeUpdateRoundTrip(u: RecipeUpdate)
    ensures ParseRecipeUpdate(RecipeUpdateToJson(u)) == Ok(u)
  {
    if u.ingredients.Some? {
      RecipeIngredientListRoundTrip(u.ingredients.value);
    }
  }

  /** Every recipe is also a recipe update, one that sets both the name and
      the ingredient list. */
  lemma RecipeIsUpdate(j: Json)
    requires IsRecipe(j)
    ensures IsRecipeUpdate(j)
    ensures var r := ParseRecipe(j).value;
            ParseRecipeUpdate(j) == Ok(RecipeUpdate(r.id, Some(r.name), Some(r.ingredients)))
  {
  }
}
