/** The home cook's search page: a single autocomplete `Select` that adds ingredient names to a flat
    list, the search request over that list, the expandable recipe cards and the favourites calls. */
module FindRecipes {
  import opened Wrappers
  import opened Catalog

  /** `fetchSuggestions(input)` once its request settles: the reply's string entries as options, in
      order, or no options when the request failed. This variant does not look at the input; its
      caller skips it for empty input. */
  function FetchSuggestions(reply: Reply<seq<Entry>>): (r: seq<Suggestion>)
    ensures reply.Err? ==> r == []
    ensures reply.Ok? ==> forall s :: Str(s) in reply.payload <==> Choice(s, s) in r
    ensures reply.Ok? ==> forall k :: 0 <= k < |r| ==> r[k].caption == r[k].value
    ensures reply.Ok? ==> r == StringOptions(reply.payload)
  {
    StringReplyOptions(reply)
  }

  predicate NoDuplicates(names: seq<string>)
  {
    forall i, j :: 0 <= i < j < |names| ==> names[i] != names[j]
  }

  /** The body `{ ingredientNames }` `handleFindByIngredients` posts to `/home-cook/find-recipes`, or
      `None` when the list is empty and no request is made. */
  function FindRequest(ingredients: seq<string>): (r: Option<seq<string>>)
    ensures r.None? <==> ingredients == []
    ensures r.Some? ==> r.value == ingredients
  {
    if |ingredients| == 0 then None else Some(ingredients)
  }

  /** `toggleIngredients(id)`: the recipe shown expanded after a click on recipe `id`. */
  function Toggled(expanded: Option<int>, id: int): (r: Option<int>)
    ensures r == Some(id) <==> expanded != Some(id)
    ensures r.Some? ==> r == Some(id)
  {
    if expanded == Some(id) then None else Some(id)
  }

  /** Two clicks on the same card restore what was expanded, when that was the card or nothing; a
      first click on a card collapses any other card. */
  lemma ToggleTwice(expanded: Option<int>, id: int)
    ensures expanded == None || expanded == Some(id) ==> Toggled(Toggled(expanded, id), id) == expanded
    ensures expanded.Some? && expanded != Some(id) ==> Toggled(Toggled(expanded, id), id) == None
  {
  }

  /** A favourites call the page makes. */
  datatype FavoriteCall = AddFavorite(userId: string, recipeId: int) | RemoveFavorite(userId: string, recipeId: int)

  /** `!userId`: the stored user id is absent or empty. */
  predicate SignedOut(userId: Option<string>)
  {
    userId.None? || userId.value == ""
  }

  /** `addToFavorites(recipeId)`: no request without a stored user id, otherwise a `POST` of
      `{ userId, recipeId }`. */
  function AddToFavorites(userId: Option<string>, recipeId: int): (r: Option<FavoriteCall>)
    ensures r.None? <==> SignedOut(userId)
    ensures r.Some? ==> r.value == AddFavorite(userId.value, recipeId)
  {
    if SignedOut(userId) then None else Some(AddFavorite(userId.value, recipeId))
  }

  /** `removeFromFavorites(recipeId)`: no request without a stored user id, otherwise a `DELETE`
      carrying `{ userId, recipeId }`. */
  function RemoveFromFavorites(userId: Option<string>, recipeId: int): (r: Option<FavoriteCall>)
    ensures r.None? <==> SignedOut(userId)
    ensures r.Some? ==> r.value == RemoveFavorite(userId.value, recipeId)
  {
    if SignedOut(userId) then None else Some(RemoveFavorite(userId.value, recipeId))
  }

  /** The search state of the page; each field is one `useState` of the component. */
  class RecipeSearch {
    var selectedOption: Option<Suggestion>
    var ingredients: seq<string>
    var suggestions: seq<Suggestion>
    var inputValue: string
    var expandedRecipeId: Option<int>

    /** The ingredient list never holds a name twice. */
    ghost predicate Valid()
      reads this
    {
      NoDuplicates(ingredients)
    }

    constructor ()
      ensures Valid()
      ensures selectedOption == None && ingredients == [] && suggestions == []
      ensures inputValue == "" && expandedRecipeId == None
    {
      selectedOption := None;
      ingredients := [];
      suggestions := [];
      inputValue := "";
      expandedRecipeId := None;
    }

    /** `onInputChange={setInputValue}` and the effect that depends on `inputValue`. The effect runs
        only when the value changed: for the empty string it clears the options without a request;
        for any other string, whitespace included, it starts a lookup for `lookup`. */
    method HandleInputChange(value: string) returns (lookup: Option<string>)
      requires Valid()
      modifies this
      ensures Valid()
      ensures inputValue == value
      ensures value == old(inputValue) ==> lookup == None && suggestions == old(suggestions)
      ensures value != old(inputValue) && value == "" ==> lookup == None && suggestions == []
      ensures value != old(inputValue) && value != "" ==> lookup == Some(value) && suggestions == old(suggestions)
      ensures ingredients == old(ingredients) && selectedOption == old(selectedOption)
      ensures expandedRecipeId == old(expandedRecipeId)
    {
      var changed := value != inputValue;
      inputValue := value;
      lookup := None;
      if changed {
        if value == "" {
          suggestions := [];
        } else {
          lookup := Some(value);
        }
      }
    }

    /** `.then(setSuggestions)`: a settled lookup replaces the options wholesale, whatever was typed
        or cleared since it started. */
    method CompleteLookup(reply: Reply<seq<Entry>>)
      requires Valid()
      modifies this
      ensures Valid()
      ensures suggestions == FetchSuggestions(reply)
      ensures ingredients == old(ingredients) && selectedOption == old(selectedOption)
      ensures inputValue == old(inputValue) && expandedRecipeId == old(expandedRecipeId)
    {
      suggestions := FetchSuggestions(reply);
    }

    /** `handleIngredientSelect(selected)`: a selected value not yet in the list is appended and the
        selection cleared; a cleared selection or a value already listed changes nothing. */
    method HandleIngredientSelect(selected: Option<Suggestion>)
      requires Valid()
      modifies this
      ensures Valid()
      ensures selected.Some? && selected.value.value !in old(ingredients) ==>
                ingredients == old(ingredients) + [selected.value.value] && selectedOption == None
      ensures selected.None? || selected.value.value in old(ingredients) ==>
                ingredients == old(ingredients) && selectedOption == old(selectedOption)
      ensures suggestions == old(suggestions) && inputValue == old(inputValue)
      ensures expandedRecipeId == old(expandedRecipeId)
    {
      if selected.Some? && selected.value.value !in ingredients {
        ingredients := ingredients + [selected.value.value];
        selectedOption := None;
      }
    }

    /** `toggleIngredients(id)`. */
    method ToggleIngredients(id: int)
      requires Valid()
      modifies this
      ensures Valid()
      ensures expandedRecipeId == Toggled(old(expandedRecipeId), id)
      ensures ingredients == old(ingredients) && selectedOption == old(selectedOption)
      ensures suggestions == old(suggestions) && inputValue == old(inputValue)
    {
      expandedRecipeId := Toggled(expandedRecipeId, id);
    }
  }

  /** Any sequence of selections on a fresh page: the list holds no name twice, holds exactly the
      selected values, and holds them in the order of their first selection. */
  method SelectionsFromFreshPage(picks: seq<Option<Suggestion>>) returns (names: seq<string>)
    ensures NoDuplicates(names)
    ensures forall k :: 0 <= k < |picks| && picks[k].Some? ==> picks[k].value.value in names
    ensures forall n :: n in names ==> exists k :: 0 <= k < |picks| && picks[k] != None && picks[k].value.value == n
    ensures forall i, j :: 0 <= i < j < |names| ==> FirstPick(picks, names[i]) < FirstPick(picks, names[j])
  {
    var page := new RecipeSearch();
    var t := 0;
    while t < |picks|
      invariant 0 <= t <= |picks|
      invariant page.Valid()
      invariant forall k :: 0 <= k < t && picks[k].Some? ==> picks[k].value.value in page.ingredients
      invariant forall n :: n in page.ingredients ==> exists k :: 0 <= k < t && picks[k] != None && picks[k].value.value == n
      invariant forall i :: 0 <= i < |page.ingredients| ==> FirstPick(picks, page.ingredients[i]) < t
      invariant forall i, j :: 0 <= i < j < |page.ingredients| ==>
                  FirstPick(picks, page.ingredients[i]) < FirstPick(picks, page.ingredients[j])
    {
      if picks[t].Some? && picks[t].value.value !in page.ingredients {
        assert FirstPick(picks, picks[t].value.value) == t;
      }
      page.HandleIngredientSelect(picks[t]);
      t := t + 1;
    }
    names := page.ingredients;
  }

  /** The position of the first selection of `name`, or `|picks|` when it is never selected. */
  function FirstPick(picks: seq<Option<Suggestion>>, name: string): (k: nat)
    ensures k <= |picks|
    ensures k < |picks| ==> picks[k].Some? && picks[k].value.value == name
    ensures forall j :: 0 <= j < k ==> picks[j].None? || picks[j].value.value != name
  {
    if picks == [] then 0
    else if picks[0].Some? && picks[0].value.value == name then 0
    else 1 + FirstPick(picks[1..], name)
  }
}
