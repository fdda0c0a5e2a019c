/** The "Add Recipe" page: a recipe form whose ingredient rows each carry an autocomplete `Select`.
    The page keeps two parallel arrays indexed by row position, `ingredients` and `suggestionsList`;
    an autocomplete lookup writes its result into a copy of the `suggestionsList` its callback
    captured when the keystroke was handled, not into the current one. */
module AddRecipe {
  import opened Wrappers
  import opened JsArray
  import opened Catalog
  import opened Recipes

  /** `suggestionsList`: one option list per row; a hole (`None`) renders as no options. */
  type SuggestionSlots = seq<Option<seq<Suggestion>>>

  /** What a call of this page's `fetchSuggestions` did: the query it sent, if any, and the options
      its promise resolves to. */
  datatype Fetched = Fetched(query: Option<string>, options: seq<Suggestion>)

  /** `fetchSuggestions(inputValue)`, with `reply` standing for the answer of the request it sends.
      Blank input resolves to no options without a request; otherwise the reply's string entries
      become options, and a failed request resolves to no options. */
  function FetchSuggestions(input: string, reply: Reply<seq<Entry>>): (r: Fetched)
    ensures IsBlank(input) <==> r.query == None
    ensures r.query.Some? ==> r.query.value == input
    ensures IsBlank(input) || reply.Err? ==> r.options == []
    ensures !IsBlank(input) && reply.Ok? ==> r.options == StringOptions(reply.payload)
  {
    if IsBlank(input) then Fetched(None, []) else Fetched(Some(input), StringReplyOptions(reply))
  }

  /** The `.then` callback a non-blank `handleInputChange` call left behind: the row index and the
      query of that call, and the `suggestionsList` its closure captured. */
  datatype PendingLookup = PendingLookup(index: nat, query: string, snapshot: SuggestionSlots)

  /** The state of the page. Each field is one `useState` of the component; a handler's calls to the
      setters become assignments to these fields. */
  class AddRecipeForm {
    var name: string
    var instructions: string
    var imageUrl: string
    var ingredients: seq<Row>
    var suggestionsList: SuggestionSlots

    /** The state the page starts in and returns to after a successful submission: empty text
        fields, a single empty row and a single empty option list. */
    ghost predicate Pristine()
      reads this
    {
      && name == "" && instructions == "" && imageUrl == ""
      && ingredients == [EmptyRow]
      && suggestionsList == [Some([])]
    }

    constructor ()
      ensures Pristine()
      ensures |ingredients| == |suggestionsList| == 1
    {
      name, instructions, imageUrl := "", "", "";
      ingredients := [EmptyRow];
      suggestionsList := [Some([])];
    }

    /** The `onChange` of the name, instructions and image URL inputs. */
    method EditText(field: FormField, value: string)
      modifies this
      ensures name == (if field == RecipeName then value else old(name))
      ensures instructions == (if field == Instructions then value else old(instructions))
      ensures imageUrl == (if field == ImageUrl then value else old(imageUrl))
      ensures ingredients == old(ingredients) && suggestionsList == old(suggestionsList)
    {
      match field
      case RecipeName => name := value;
      case Instructions => instructions := value;
      case ImageUrl => imageUrl := value;
    }

    /** `handleInputChange(index, inputValue)`: for blank input, the option list of row `index` is
        emptied at once; otherwise a lookup is started and its callback, returned as `pending`, is
        the only later effect. Either way the input string is handed back unchanged. */
    method HandleInputChange(index: nat, input: string) returns (echo: string, pending: Option<PendingLookup>)
      modifies this
      ensures echo == input
      ensures IsBlank(input) ==> pending == None && suggestionsList == Assign(old(suggestionsList), index, [])
      ensures !IsBlank(input) ==>
                pending == Some(PendingLookup(index, input, old(suggestionsList)))
                && suggestionsList == old(suggestionsList)
      ensures name == old(name) && instructions == old(instructions) && imageUrl == old(imageUrl)
      ensures ingredients == old(ingredients)
    {
      if IsBlank(input) {
        var newSuggestions := suggestionsList;
        newSuggestions := Assign(newSuggestions, index, []);
        suggestionsList := newSuggestions;
        return input, None;
      }
      pending := Some(PendingLookup(index, input, suggestionsList));
      echo := input;
    }

    /** The `.then((options) => ...)` callback of `pending` running with the reply to its request:
        `suggestionsList` becomes the captured snapshot with slot `index` set to the options. The
        current `suggestionsList` is not read, so whatever happened to it since the keystroke is
        overwritten. */
    method CompleteInputChange(pending: PendingLookup, reply: Reply<seq<Entry>>)
      modifies this
      ensures suggestionsList == Assign(pending.snapshot, pending.index,
                                        FetchSuggestions(pending.query, reply).options)
      ensures name == old(name) && instructions == old(instructions) && imageUrl == old(imageUrl)
      ensures ingredients == old(ingredients)
    {
      var options := FetchSuggestions(pending.query, reply).options;
      var newSuggestions := pending.snapshot;
      newSuggestions := Assign(newSuggestions, pending.index, options);
      suggestionsList := newSuggestions;
    }

    /** `handleIngredientNameChange(index, selectedOption)`: row `index` takes the selected value as
        its name, or `''` when the selection was cleared; nothing else changes. */
    method HandleIngredientNameChange(index: nat, selected: Option<Suggestion>)
      requires index < |ingredients|
      modifies this
      ensures |ingredients| == |old(ingredients)|
      ensures ingredients[index].name == (if selected.Some? then selected.value.value else "")
      ensures ingredients[index].quantity == old(ingredients)[index].quantity
      ensures forall j :: 0 <= j < |ingredients| && j != index ==> ingredients[j] == old(ingredients)[j]
      ensures name == old(name) && instructions == old(instructions) && imageUrl == old(imageUrl)
      ensures suggestionsList == old(suggestionsList)
    {
      var updated := ingredients;
      updated := updated[index := updated[index].(name := if selected.Some? then selected.value.value else "")];
      ingredients := updated;
    }

    /** `handleIngredientQuantityChange(index, value)`: row `index` takes `value` verbatim as its
        quantity; nothing else changes. */
    method HandleIngredientQuantityChange(index: nat, value: string)
      requires index < |ingredients|
      modifies this
      ensures |ingredients| == |old(ingredients)|
      ensures ingredients[index] == Row(old(ingredients)[index].name, value)
      ensures forall j :: 0 <= j < |ingredients| && j != index ==> ingredients[j] == old(ingredients)[j]
      ensures name == old(name) && instructions == old(instructions) && imageUrl == old(imageUrl)
      ensures suggestionsList == old(suggestionsList)
    {
      var updated := ingredients;
      updated := updated[index := updated[index].(quantity := value)];
      ingredients := updated;
    }

    /** `addIngredientField()`: one empty row and one empty option list are appended; the earlier
        rows and lists are kept. */
    method AddIngredientField()
      modifies this
      ensures ingredients == old(ingredients) + [EmptyRow]
      ensures suggestionsList == old(suggestionsList) + [Some([])]
      ensures |old(ingredients)| == |old(suggestionsList)| ==> |ingredients| == |suggestionsList|
      ensures name == old(name) && instructions == old(instructions) && imageUrl == old(imageUrl)
    {
      ingredients := ingredients + [EmptyRow];
      suggestionsList := suggestionsList + [Some([])];
    }

    /** `handleSubmit`: the create request is sent with the current fields and rows, in order.
        Sending changes nothing; what happens to the form waits for the reply. */
    method HandleSubmit(creatorId: int) returns (request: Request)
      ensures request == Request(Post, AddRecipePath, Payload(creatorId, name, instructions, imageUrl, ingredients))
    {
      request := Request(Post, AddRecipePath, Payload(creatorId, name, instructions, imageUrl, ingredients));
    }

    /** The code after `await api.post(...)`: on success the form returns to its initial state,
        whatever was typed while the request was in flight; on failure nothing changes. */
    method CompleteSubmit(reply: Reply<()>)
      modifies this
      ensures reply.Ok? ==> Pristine()
      ensures reply.Err? ==>
                && name == old(name) && instructions == old(instructions) && imageUrl == old(imageUrl)
                && ingredients == old(ingredients) && suggestionsList == old(suggestionsList)
    {
      if reply.Ok? {
        name, instructions, imageUrl := "", "", "";
        ingredients := [EmptyRow];
        suggestionsList := [Some([])];
      }
    }
  }

  /** A query that starts with a letter is not blank. */
  lemma NotBlank(s: string)
    requires s != [] && 'a' <= s[0] <= 'z'
    ensures !IsBlank(s)
  {
    BlankIffAllWhitespace(s);
  }

  /** A lookup started on row 0 completes after a second row was added: the completion writes back
      the one-slot snapshot, so the page is left with two rows and a single option list. Equal
      lengths are not an invariant of the page. */
  method CompletionAfterAddShrinksList(reply: Reply<seq<Entry>>) returns (rows: nat, slots: nat)
    ensures rows == 2 && slots == 1
  {
    NotBlank("tom");
    var form := new AddRecipeForm();
    var _, pending := form.HandleInputChange(0, "tom");
    form.AddIngredientField();
    form.CompleteInputChange(pending.value, reply);
    rows, slots := |form.ingredients|, |form.suggestionsList|;
  }

  /** Lookups on rows 0 and 1 are both started before either completes. Each callback captured the
      list as it was before either result, so the second completion erases the first: row 0 ends
      with no options whatever its reply held, and row 1 with its own. */
  method CrossRowLostUpdate(replyRow0: Reply<seq<Entry>>, replyRow1: Reply<seq<Entry>>)
    returns (shown0: seq<Suggestion>, shown1: seq<Suggestion>)
    ensures shown0 == []
    ensures shown1 == StringReplyOptions(replyRow1)
  {
    NotBlank("egg");
    NotBlank("oil");
    var form := new AddRecipeForm();
    form.AddIngredientField();
    var before: SuggestionSlots := form.suggestionsList;
    assert before == [Some([]), Some([])];
    var _, p0 := form.HandleInputChange(0, "egg");
    var _, p1 := form.HandleInputChange(1, "oil");
    assert p0.value.snapshot == before && p1.value.snapshot == before;
    form.CompleteInputChange(p0.value, replyRow0);
    form.CompleteInputChange(p1.value, replyRow1);
    assert form.suggestionsList == Assign(before, 1, StringReplyOptions(replyRow1));
    shown0, shown1 := SlotOrEmpty(form.suggestionsList, 0), SlotOrEmpty(form.suggestionsList, 1);
  }

  /** Row 0 gets the query "to" and then "tom"; the reply to "tom" arrives first and the reply to
      "to" last. The row ends with the options of the older query. */
  method OutOfOrderRepliesKeepOlder(replyTo: Reply<seq<Entry>>, replyTom: Reply<seq<Entry>>)
    returns (shown: seq<Suggestion>)
    ensures shown == StringReplyOptions(replyTo)
  {
    NotBlank("to");
    NotBlank("tom");
    var form := new AddRecipeForm();
    var _, pTo := form.HandleInputChange(0, "to");
    var _, pTom := form.HandleInputChange(0, "tom");
    form.CompleteInputChange(pTom.value, replyTom);
    form.CompleteInputChange(pTo.value, replyTo);
    shown := SlotOrEmpty(form.suggestionsList, 0);
  }

  /** Row 0 starts lookups for "sa" and "sal"; the first completes and fills the row, then the input
      is cleared while the second is still in flight. The clear empties the row at once, and the
      late reply then writes its own options into it. */
  method LateReplyRefillsClearedRow(first: Reply<seq<Entry>>, late: Reply<seq<Entry>>)
    returns (beforeClear: seq<Suggestion>, afterClear: seq<Suggestion>, afterReply: seq<Suggestion>)
    ensures beforeClear == StringReplyOptions(first)
    ensures afterClear == []
    ensures afterReply == StringReplyOptions(late)
  {
    NotBlank("sa");
    NotBlank("sal");
    assert IsBlank(" ") by { BlankIffAllWhitespace(" "); }
    var form := new AddRecipeForm();
    var _, pSa := form.HandleInputChange(0, "sa");
    var _, pSal := form.HandleInputChange(0, "sal");
    form.CompleteInputChange(pSa.value, first);
    beforeClear := SlotOrEmpty(form.suggestionsList, 0);
    var _, none := form.HandleInputChange(0, " ");
    afterClear := SlotOrEmpty(form.suggestionsList, 0);
    form.CompleteInputChange(pSal.value, late);
    afterReply := SlotOrEmpty(form.suggestionsList, 0);
  }

  /** The form is sent with the name "Pancakes", and the user types a new name before the reply
      arrives. The request carried the old name; the successful reply then wipes the new one. */
  method EditDuringSubmitIsWiped(creatorId: int, typed: string) returns (sent: Request, nameAfter: string)
    ensures sent.body.name == "Pancakes"
    ensures nameAfter == ""
  {
    var form := new AddRecipeForm();
    form.EditText(RecipeName, "Pancakes");
    sent := form.HandleSubmit(creatorId);
    form.EditText(RecipeName, typed);
    form.CompleteSubmit(Ok(()));
    nameAfter := form.name;
  }
}
