/** The recipe creator's dashboard: the same ingredient-row form as the "Add Recipe" page, used both
    to create a recipe and to edit one of the creator's recipes. Its lookups are never skipped, its
    conversion keeps every reply entry, and `startEdit` replaces the rows without touching the
    option lists. */
module CreatorDashboard {
  import opened Wrappers
  import opened JsArray
  import opened Catalog
  import opened Recipes

  /** `suggestionsList` on this page: one option list per row, options built from raw entries. */
  type OptionSlots = seq<Option<seq<Choice<Entry>>>>

  /** The query a call of this page's `fetchSuggestions` sent and the options it resolves to. */
  datatype Fetched = Fetched(query: string, options: seq<Choice<Entry>>)

  /** `fetchSuggestions(input)`: the request is sent for every input, blank or not; every entry of
      the reply becomes an option, strings or not; a failed request resolves to no options. */
  function FetchSuggestions(input: string, reply: Reply<seq<Entry>>): (r: Fetched)
    ensures r.query == input
    ensures reply.Err? ==> r.options == []
    ensures reply.Ok? ==> |r.options| == |reply.payload|
    ensures reply.Ok? ==> forall k :: 0 <= k < |r.options| ==> r.options[k] == Choice(reply.payload[k], reply.payload[k])
  {
    match reply
    case Ok(data) => Fetched(input, AllOptions(data))
    case Err => Fetched(input, [])
  }

  /** The `.then` callback a `handleSelectInputChange` call left behind: the row index, the query,
      and the `suggestionsList` its closure captured. */
  datatype PendingLookup = PendingLookup(index: nat, query: string, snapshot: OptionSlots)

  datatype Tab = AddTab | MyRecipesTab

  /** An input the browser's constraint validation reports, in document order. */
  datatype Invalid = MissingName | MissingInstructions | MissingQuantity(row: nat)

  /** `required={!!ing.name}`: the quantity input of a row is required only when the row has a name. */
  predicate QuantitySatisfied(row: Row)
  {
    row.name != "" ==> row.quantity != ""
  }

  /** The first row whose required quantity is empty. */
  function FirstMissingQuantity(rows: seq<Row>): (r: Option<nat>)
    ensures r.None? <==> forall k :: 0 <= k < |rows| ==> QuantitySatisfied(rows[k])
    ensures r.Some? ==> r.value < |rows| && !QuantitySatisfied(rows[r.value])
    ensures r.Some? ==> forall k :: 0 <= k < r.value ==> QuantitySatisfied(rows[k])
  {
    if rows == [] then None
    else if !QuantitySatisfied(rows[0]) then Some(0)
    else match FirstMissingQuantity(rows[1..])
         case None => None
         case Some(k) => Some(k + 1)
  }

  /** The `required` attributes of the form, checked in document order before `onSubmit` runs: the
      recipe name, the instructions, then each row's quantity. `None` lets the submission through. */
  function FirstInvalid(form: RecipeForm, rows: seq<Row>): (r: Option<Invalid>)
    ensures r.None? <==>
              form.name != "" && form.instructions != "" && forall k :: 0 <= k < |rows| ==> QuantitySatisfied(rows[k])
    ensures r == Some(MissingName) <==> form.name == ""
    ensures r == Some(MissingInstructions) <==> form.name != "" && form.instructions == ""
    ensures r.Some? && r.value.MissingQuantity? ==>
              r.value.row < |rows| && rows[r.value.row].name != "" && rows[r.value.row].quantity == ""
  {
    if form.name == "" then Some(MissingName)
    else if form.instructions == "" then Some(MissingInstructions)
    else match FirstMissingQuantity(rows)
         case None => None
         case Some(k) => Some(MissingQuantity(k))
  }

  /** A row with an empty name never changes whether the form may be submitted, wherever it stands. */
  lemma {:induction false} UnnamedRowNeverBlocks(form: RecipeForm, rows: seq<Row>, at: nat, quantity: string)
    requires at <= |rows|
    ensures FirstInvalid(form, rows[..at] + [Row("", quantity)] + rows[at..]).None? == FirstInvalid(form, rows).None?
  {
    var longer := rows[..at] + [Row("", quantity)] + rows[at..];
    assert forall k :: 0 <= k < |rows| ==> rows[k] == longer[if k < at then k else k + 1];
    assert forall k :: 0 <= k < |longer| && k != at ==> longer[k] == rows[if k < at then k else k - 1];
  }

  /** Two submissions: a named row without quantity is stopped in the browser, a lone unnamed row
      goes through. */
  lemma SubmissionExamples(form: RecipeForm)
    requires form.name != "" && form.instructions != ""
    ensures FirstInvalid(form, [Row("Egg", ""), Row("", "")]) == Some(MissingQuantity(0))
    ensures FirstInvalid(form, [Row("", "")]) == None
  {
  }

  /** The request `handleRecipeSubmit` sends: a `PUT` to the recipe's update path while a recipe is
      being edited, a `POST` to the create path otherwise; the body carries the form and the rows in
      their order. */
  function SubmitRequest(creatorId: int, form: RecipeForm, rows: seq<Row>, editing: Option<Recipe>): (r: Request)
    ensures r.verb == Put <==> editing.Some?
    ensures editing.Some? ==> r.path == UpdateRecipePath(editing.value.id)
    ensures editing.None? ==> r.path == AddRecipePath
    ensures r.body == Payload(creatorId, form.name, form.instructions, form.imageUrl, rows)
  {
    var payload := Payload(creatorId, form.name, form.instructions, form.imageUrl, rows);
    match editing
    case Some(recipe) => Request(Put, UpdateRecipePath(recipe.id), payload)
    case None => Request(Post, AddRecipePath, payload)
  }

  /** The state of the dashboard's form tab; each field is one `useState` of the component. */
  class Dashboard {
    var activeTab: Tab
    var form: RecipeForm
    var ingredients: seq<Row>
    var suggestionsList: OptionSlots
    var editing: Option<Recipe>

    /** The form as `useState` creates it and `resetForm` leaves it. */
    ghost predicate Cleared()
      reads this
    {
      && form == EmptyForm
      && ingredients == [EmptyRow]
      && suggestionsList == [Some([])]
      && editing == None
    }

    constructor ()
      ensures Cleared() && activeTab == AddTab
      ensures |ingredients| == |suggestionsList| == 1
    {
      activeTab := AddTab;
      form := EmptyForm;
      ingredients := [EmptyRow];
      suggestionsList := [Some([])];
      editing := None;
    }

    /** The `onChange` of the name, instructions and image URL inputs. */
    method EditForm(field: FormField, value: string)
      requires activeTab == AddTab
      modifies this
      ensures form == WithFormField(old(form), field, value)
      ensures ingredients == old(ingredients) && suggestionsList == old(suggestionsList)
      ensures editing == old(editing) && activeTab == old(activeTab)
    {
      form := WithFormField(form, field, value);
    }

    /** A sidebar button's `setActiveTab(tab)`: only the shown tab changes, so switching to the
        recipe list and back keeps a half-filled form. */
    method SelectTab(tab: Tab)
      modifies this
      ensures activeTab == tab
      ensures form == old(form) && ingredients == old(ingredients)
      ensures suggestionsList == old(suggestionsList) && editing == old(editing)
    {
      activeTab := tab;
    }

    /** `handleIngredientChange(index, field, value)`: `field` of row `index` becomes `value`; the
        row's other field, every other row and the number of rows are kept. */
    method HandleIngredientChange(index: nat, field: RowField, value: string)
      requires activeTab == AddTab
      requires index < |ingredients|
      modifies this
      ensures |ingredients| == |old(ingredients)|
      ensures ingredients[index] == WithRowField(old(ingredients)[index], field, value)
      ensures forall j :: 0 <= j < |ingredients| && j != index ==> ingredients[j] == old(ingredients)[j]
      ensures form == old(form) && suggestionsList == old(suggestionsList)
      ensures editing == old(editing) && activeTab == old(activeTab)
    {
      var updated := ingredients;
      updated := updated[index := WithRowField(updated[index], field, value)];
      ingredients := updated;
    }

    /** `addIngredientField()`: an empty row and an empty option list are appended, so lists of equal
        length stay equal. */
    method AddIngredientField()
      requires activeTab == AddTab
      modifies this
      ensures ingredients == old(ingredients) + [EmptyRow]
      ensures suggestionsList == old(suggestionsList) + [Some([])]
      ensures |old(ingredients)| == |old(suggestionsList)| ==> |ingredients| == |suggestionsList|
      ensures form == old(form) && editing == old(editing) && activeTab == old(activeTab)
    {
      ingredients := ingredients + [EmptyRow];
      suggestionsList := suggestionsList + [Some([])];
    }

    /** `handleSelectInputChange(idx, inputValue)`: a lookup is started for every input, blank
        included, and nothing changes now; the input string is handed back unchanged. */
    method HandleSelectInputChange(idx: nat, input: string) returns (echo: string, pending: PendingLookup)
      requires activeTab == AddTab
      ensures echo == input
      ensures pending == PendingLookup(idx, input, suggestionsList)
    {
      pending := PendingLookup(idx, input, suggestionsList);
      echo := input;
    }

    /** The callback of `pending` running with the reply to its request: `suggestionsList` becomes
        the captured snapshot with slot `index` set to the options. */
    method CompleteSelectInput(pending: PendingLookup, reply: Reply<seq<Entry>>)
      modifies this
      ensures suggestionsList == Assign(pending.snapshot, pending.index, FetchSuggestions(pending.query, reply).options)
      ensures form == old(form) && ingredients == old(ingredients)
      ensures editing == old(editing) && activeTab == old(activeTab)
    {
      var updated := pending.snapshot;
      updated := Assign(updated, pending.index, FetchSuggestions(pending.query, reply).options);
      suggestionsList := updated;
    }

    /** `resetForm()`: whatever the state was, the form, the rows, the option lists and the edited
        recipe return to their initial values. */
    method ResetForm()
      modifies this
      ensures Cleared()
      ensures |ingredients| == |suggestionsList|
      ensures activeTab == old(activeTab)
    {
      form := EmptyForm;
      ingredients := [EmptyRow];
      suggestionsList := [Some([])];
      editing := None;
    }

    /** `startEdit(recipe)`: the form takes the recipe's text fields, the rows become the recipe's
        rows (one empty row when it has none), the recipe becomes the one being edited and the form
        tab is shown. The option lists are left as they were, whatever the new number of rows. */
    method StartEdit(recipe: Recipe)
      modifies this
      ensures form == RecipeForm(recipe.name, recipe.instructions, recipe.imageUrl)
      ensures ingredients == if |recipe.ingredients| > 0 then recipe.ingredients else [EmptyRow]
      ensures editing == Some(recipe) && activeTab == AddTab
      ensures suggestionsList == old(suggestionsList)
    {
      form := RecipeForm(recipe.name, recipe.instructions, recipe.imageUrl);
      ingredients := if |recipe.ingredients| > 0 then recipe.ingredients else [EmptyRow];
      editing := Some(recipe);
      activeTab := AddTab;
    }

    /** Submitting the form: when a `required` input is empty the browser stops the submission and
        nothing is sent; otherwise the request of `SubmitRequest` is sent. Sending changes nothing;
        what happens to the form waits for the reply. */
    method HandleRecipeSubmit(creatorId: int) returns (request: Option<Request>)
      requires activeTab == AddTab
      ensures request.None? <==> FirstInvalid(form, ingredients).Some?
      ensures request.Some? ==> request.value == SubmitRequest(creatorId, form, ingredients, editing)
    {
      if FirstInvalid(form, ingredients).Some? {
        return None;
      }
      request := Some(SubmitRequest(creatorId, form, ingredients, editing));
    }

    /** The code after the `await` of the request: on success `resetForm()`, whatever was edited or
        started for editing while the request was in flight; on failure nothing changes. */
    method CompleteRecipeSubmit(reply: Reply<()>)
      modifies this
      ensures reply.Ok? ==> Cleared()
      ensures reply.Err? ==>
                && form == old(form) && ingredients == old(ingredients)
                && suggestionsList == old(suggestionsList) && editing == old(editing)
      ensures activeTab == old(activeTab)
    {
      if reply.Ok? {
        ResetForm();
      }
    }
  }

  /** Editing a recipe with two rows from a fresh dashboard leaves two rows beside a single option
      list: `startEdit` does not keep the lengths equal. */
  method StartEditBreaksEqualLengths() returns (rows: nat, slots: nat)
    ensures rows == 2 && slots == 1
  {
    var page := new Dashboard();
    page.StartEdit(Recipe(7, "Soup", "Boil", "", [Row("Leek", "2"), Row("Salt", "1 tsp")]));
    rows, slots := |page.ingredients|, |page.suggestionsList|;
  }

  /** After editing a three-row recipe, a lookup on the last row writes past the end of the
      one-slot list: the list grows to three slots with a hole in the middle. */
  method LookupPastEndLeavesHole(reply: Reply<seq<Entry>>) returns (slots: OptionSlots)
    ensures |slots| == 3
    ensures slots[0] == Some([]) && slots[1] == None
    ensures slots[2] == Some(FetchSuggestions("sa", reply).options)
  {
    var page := new Dashboard();
    page.StartEdit(Recipe(8, "Stew", "Simmer", "", [Row("Beef", "1 kg"), Row("Leek", "2"), Row("Salt", "")]));
    var _, pending := page.HandleSelectInputChange(2, "sa");
    page.CompleteSelectInput(pending, reply);
    slots := page.suggestionsList;
  }

  /** A new recipe is sent; before the reply arrives the creator opens the recipe list and clicks
      Edit on another recipe. The successful reply then resets the form: the recipe that was opened
      for editing is no longer being edited and its fields are gone. */
  method EditDuringSubmitIsWiped(creatorId: int, other: Recipe) returns (sent: Option<Request>, editingAfter: Option<Recipe>)
    ensures sent == Some(Request(Post, AddRecipePath, Payload(creatorId, "Soup", "Boil", "", [EmptyRow])))
    ensures editingAfter == None
  {
    var page := new Dashboard();
    page.EditForm(RecipeName, "Soup");
    page.EditForm(Instructions, "Boil");
    sent := page.HandleRecipeSubmit(creatorId);
    page.SelectTab(MyRecipesTab);
    page.StartEdit(other);
    page.CompleteRecipeSubmit(Ok(()));
    editingAfter := page.editing;
  }
}
