/** The prompt of src/mcp/prompts.ts: `suggest-ingredients`, whose one
    argument `recipeId` is completed from the recipe listing, and whose
    result is one user message built from a template literal that is
    trimmed before it is sent.

    As with the resources, the handler is a function of what its backend
    read yields, and `JSON.stringify` is the parameter `stringify`. The
    completion of `recipeId` is the recipe template's id completion,
    `Resources.CompleteRecipeId`. */
module Prompts {
  import opened Wrappers
  import opened Json
  import opened Text
  import opened Schema
  import opened Store
  import opened Api
  import Resources

  /** Thrown when the recipe is absent. The message does not name the id. */
  const RecipeRequiredMessage := "Recipe is required"

  datatype MessageContent = MessageContent(kind: string, text: string)

  datatype PromptMessage = PromptMessage(role: string, content: MessageContent)

  // The pieces of the template literal, around its two interpolations.

  const Opening := "Here is my recipe with ID "
  const Quote := "\""
  const AfterId := "\": "

  const ListToolName := "\"list-ingredients\""
  const AddToolName := "\"add-ingredient\""
  const AddToRecipeToolName := "\"add-ingredient-to-recipe\""

  const BeforeListTool := ".\nPlease suggest some ingredients to add to it. Feel free to suggest new ingredients I don't have yet.\nUse "
  const BeforeAddTool := " tool to get the list of ingredients I have available.\nFor each ingredient I approve, if it does not yet exist, create it with the MealPlanner "
  const BeforeAddToRecipeTool := " tool. Then add approved ingredients to the recipe with the MealPlanner "
  const AfterTools := " tool."

  /** Everything after the serialised recipe. */
  const Closing := BeforeListTool + ListToolName + BeforeAddTool + AddToolName + BeforeAddToRecipeTool
                   + AddToRecipeToolName + AfterTools

  /** The literal's framing: a line break after the opening backtick, and
      a line break and the indentation before the closing one. */
  const LeadingBreak := "\n"
  const TrailingIndent := "\n              "

  /** The message as the model should read it. */
  function MessageBody(recipeId: string, recipeText: string): string {
    Opening + Quote + recipeId + AfterId + recipeText + Closing
  }

  /** The template literal before `trim`. */
  function TemplateLiteral(recipeId: string, recipeText: string): string {
    LeadingBreak + MessageBody(recipeId, recipeText) + TrailingIndent
  }

  /** The text sent: trimming removes exactly the literal's framing, and
      never touches the id or the serialised recipe, whatever white space
      they hold. */
  function MessageText(recipeId: string, recipeText: string): (text: string)
    ensures text == MessageBody(recipeId, recipeText)
  {
    var body := MessageBody(recipeId, recipeText);
    assert body[0] == 'H';
    assert body[|body| - 1] == '.' by {
      assert body == (Opening + Quote + recipeId + AfterId + recipeText) + Closing;
      assert Closing[|Closing| - 1] == '.';
    }
    TrimFramed(LeadingBreak, body, TrailingIndent);
    Trim(TemplateLiteral(recipeId, recipeText))
  }

  /** The closing part names each of the three tools. */
  lemma ClosingNamesTools()
    ensures Includes(Closing, ListToolName)
    ensures Includes(Closing, AddToolName)
    ensures Includes(Closing, AddToRecipeToolName)
  {
    IncludesSpliced(BeforeListTool, ListToolName, BeforeAddTool, AddToolName, BeforeAddToRecipeTool,
                    AddToRecipeToolName, AfterTools);
  }

  /** The message quotes the recipe id, carries the serialised recipe, and
      names each of the three tools it tells the model to use. */
  lemma MessageMentions(recipeId: string, recipeText: string)
    ensures var text := MessageText(recipeId, recipeText);
            && Includes(text, Quote + recipeId + Quote)
            && Includes(text, recipeText)
            && Includes(text, ListToolName)
            && Includes(text, AddToolName)
            && Includes(text, AddToRecipeToolName)
  {
    var text := MessageText(recipeId, recipeText);
    var idQuoted := Quote + recipeId + Quote;
    assert text == Opening + idQuoted + (": " + recipeText + Closing);
    IncludesInfix(Opening, idQuoted, ": " + recipeText + Closing);
    var beforeText := Opening + Quote + recipeId + AfterId;
    assert text == beforeText + recipeText + Closing;
    IncludesInfix(beforeText, recipeText, Closing);
    var front := beforeText + recipeText;
    assert text == front + Closing + "";
    ClosingNamesTools();
    IncludesWithin(front, Closing, "", ListToolName);
    IncludesWithin(front, Closing, "", AddToolName);
    IncludesWithin(front, Closing, "", AddToRecipeToolName);
  }

  /** The message starts with the fixed opening followed by the quoted id,
      so the id can be read back from it. */
  lemma MessageNamesRecipe(recipeId: string, recipeText: string)
    ensures var text := MessageText(recipeId, recipeText);
            var start := |Opening| + |Quote|;
            && StartsWith(text, Opening + Quote)
            && start + |recipeId| <= |text|
            && text[start..start + |recipeId|] == recipeId
  {
    var text := MessageText(recipeId, recipeText);
    assert text == (Opening + Quote) + recipeId + (AfterId + recipeText + Closing);
  }

  /** The prompt's callback once the recipe read is in: a failed read is
      passed on, an absent recipe fails with the fixed message, and a
      present one gives exactly one user text message about it. */
  function SuggestIngredients(recipeId: string, lookup: Result<Option<Recipe>, Failure>, stringify: Json -> string)
    : (r: Result<seq<PromptMessage>, Failure>)
    ensures lookup.Err? ==> r == Err(lookup.error)
    ensures lookup == Ok(None) ==> r == Err(Error(RecipeRequiredMessage))
    ensures lookup.Ok? && lookup.value.Some? ==>
              && r.Ok? && |r.value| == 1
              && r.value[0].role == "user" && r.value[0].content.kind == "text"
              && r.value[0].content.text == MessageBody(recipeId, stringify(RecipeToJson(lookup.value.value)))
  {
    match lookup
    case Err(e) => Err(e)
    case Ok(None) => Err(Error(RecipeRequiredMessage))
    case Ok(Some(recipe)) =>
      Ok([PromptMessage("user", MessageContent("text", MessageText(recipeId, stringify(RecipeToJson(recipe)))))])
  }

  /** The error for an absent recipe is the same for every id: it does not
      say which recipe was asked for. */
  lemma NotFoundIgnoresId(a: string, b: string, stringify: Json -> string)
    ensures SuggestIngredients(a, Ok(None), stringify) == SuggestIngredients(b, Ok(None), stringify)
  {
  }

  /** The `recipeId` argument's completion: one listing request, nothing
      changed, and the recipe ids that contain the value, in listing order. */
  method CompleteRecipeArgument(client: Client, value: string) returns (r: Result<seq<string>, Failure>)
    modifies client.store
    ensures client.store.requests == old(client.store.requests) + [ListRequest(Store.Recipes)]
    ensures client.store.ingredients == old(client.store.ingredients) && client.store.recipes == old(client.store.recipes)
    ensures r == Resources.CompleteRecipeId(RecipeListing(client.store.recipes), value)
  {
    var listing := client.GetRecipeList();
    r := Resources.CompleteRecipeId(listing, value);
  }

  /** Getting the prompt: one read of the recipe, nothing changed in the
      backend, and the message for what the read yields. */
  method HandleSuggestIngredients(client: Client, recipeId: string, stringify: Json -> string)
    returns (r: Result<seq<PromptMessage>, Failure>)
    modifies client.store
    ensures client.store.requests == old(client.store.requests) + [ItemRequest(Get, Store.Recipes, recipeId)]
    ensures client.store.ingredients == old(client.store.ingredients) && client.store.recipes == old(client.store.recipes)
    ensures r == SuggestIngredients(recipeId, RecipeLookup(client.store.recipes, recipeId), stringify)
    ensures Find(client.store.recipes, recipeId).None? ==> r == Err(Error(RecipeRequiredMessage))
  {
    var lookup := client.GetRecipe(recipeId);
    r := SuggestIngredients(recipeId, lookup, stringify);
  }
}
