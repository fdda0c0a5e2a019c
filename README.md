# Recipe client: ingredient-row forms and session state

A Dafny model of the client-side state of the RecipeRecommender front end, a React application over
a REST API. It covers four parts:

- **The ingredient-row editors.** These are the "Add Recipe" page and the creator dashboard's
  add/edit form. Each keeps two arrays indexed by row position: `ingredients`, holding the rows
  `{name, quantity}`, and `suggestionsList`, holding one autocomplete option list per row.
- **The three `fetchSuggestions` variants.** Each turns an autocomplete reply into react-select
  options.
- **The search page's flat ingredient list.** This covers duplicate-free selection, the search
  request gate, the expanded-card toggle and the favourites guard.
- **The session.** This covers the `AuthContext` provider over `localStorage`, the `ProtectedRoute`
  guard and the login page's role-to-route choice.

Each stateful page component ("Add Recipe", the creator dashboard, the search page, and the
`AuthContext` provider) is a class. Each of its `useState` hooks is a field, and each handler is a method that
assigns the fields its setters write. The route guard and the login page's submit logic are
functions. Every network reply is an input value of type
`Reply<T> = Ok(payload) | Err`. A promise callback does not run inside its handler; it is a
separate later event. This holds for the form submissions too: sending a form is one method, and
what the reply does to the form is a later method. On the two row-editor pages, a keystroke on a row's autocomplete field that
starts a lookup returns a `PendingLookup` holding the row index, the query and the
`suggestionsList` its closure captured. On "Add Recipe" only a non-blank keystroke starts one; the
dashboard starts one for every keystroke, a blank one included. The completion method later takes
that value and a reply. The search page's lookup captures nothing: its keystroke handler returns
only the query, and its completion replaces the options wholesale. The model follows the code: it
has no sequence token and no row identity. Rows are positions, and a completion writes
`Assign(snapshot, index, options)`, the JavaScript `copy[index] = options` on the captured copy.
Writing past the end of a JavaScript array grows it and leaves holes. The option lists therefore
have type `seq<Option<seq<...>>>`, where `None` is a hole and renders as no options.

With the code modelled this way, the scenario methods prove these facts:

- A completion that arrives after a row was added shrinks `suggestionsList` back to the snapshot's
  length (`AddRecipe.CompletionAfterAddShrinksList`).
- Of two lookups on different rows that are both in flight, the later completion erases the
  earlier one's row. The row whose reply arrives first ends up with no options, and the other row
  shows its own reply (`AddRecipe.CrossRowLostUpdate`).
- When the replies to "to" and "tom" arrive out of order, the row ends up with the reply to the
  older query (`AddRecipe.OutOfOrderRepliesKeepOlder`).
- Clearing a row's input empties its options at once, but a reply still in flight then fills the
  row with that late reply's options (`AddRecipe.LateReplyRefillsClearedRow`).
- A successful save clears whatever is on the form when the reply arrives. A name typed after
  sending is wiped (`AddRecipe.EditDuringSubmitIsWiped`). On the dashboard, a recipe opened for
  editing while the save is in flight is dropped (`CreatorDashboard.EditDuringSubmitIsWiped`).
- On the dashboard, `startEdit` does not keep the two arrays the same length
  (`CreatorDashboard.StartEditBreaksEqualLengths`). A later lookup then writes past the end of the
  list and leaves a hole (`CreatorDashboard.LookupPastEndLeavesHole`).

Adding a row and resetting the form do keep the two lengths equal.

A per-row sequence token or a stable row id would rule these outcomes out. The code has neither,
so the model has neither.

One file per module: `wrappers.dfy`, `js_array.dfy`, `catalog.dfy`, `recipes.dfy`,
`add_recipe.dfy`, `creator_dashboard.dfy`, `find_recipes.dfy`, `auth_context.dfy`,
`protected_route.dfy`, `login.dfy`.

## Model

| member | source | states |
|---|---|---|
| JsArray.Assign | src/pages/AddRecipe.js:29-30 | `copy[i] = v` on a copied array: slot `i` holds `v`, every other existing slot is kept, a write past the end grows the array to `i + 1` with holes between |
| Catalog.BlankIffAllWhitespace | src/pages/AddRecipe.js:14 | `s.trim() === ''` holds exactly when every character of `s` is JavaScript whitespace |
| Catalog.StringOptions | src/pages/AddRecipe.js:17-19 | the filtered options are no more than the entries, each has label equal to value and comes from a string entry, and every string entry appears as an option |
| Catalog.StringReplyOptions | src/pages/AddRecipe.js:15-23 | a failed call resolves to `[]`; a reply resolves to the string-entry conversion `StringOptions` of its body, never longer than the body |
| Catalog.StringOptionsAppend | src/pages/AddRecipe.js:17-19 | the filter/map keeps order: the options of a concatenated reply are the concatenated options |
| Catalog.StringOptionsOfStrings | src/pages/AddRecipe.js:17-19 | a reply of strings only is converted entry by entry, `{label: s, value: s}`, nothing dropped |
| Catalog.MixedReplyExample | src/pages/FindRecipes.js:29-31 | `["Flour", 42, null, "Sugar"]` gives exactly the Flour and Sugar options |
| Catalog.AllOptions | src/pages/RecipeCreatorDashboard.js:27 | the unfiltered map keeps every entry, string or not, as `{label: e, value: e}` at the same position |
| Catalog.AllOptionsVersusStringOptions | src/pages/RecipeCreatorDashboard.js:27 | the dashboard's conversion agrees with the filtering one exactly when the reply holds only strings |
| AddRecipe.FetchSuggestions | src/pages/AddRecipe.js:13-24 | blank input sends no request and gives `[]`; otherwise it queries the input, a failed call gives `[]`, a reply gives its string entries |
| AddRecipe.AddRecipeForm.constructor | src/pages/AddRecipe.js:6-10 | empty text fields, one empty row, `suggestionsList == [[]]` |
| AddRecipe.AddRecipeForm.EditText | src/pages/AddRecipe.js:105-121 | each text input's `onChange` sets its own field and nothing else |
| AddRecipe.AddRecipeForm.HandleInputChange | src/pages/AddRecipe.js:27-43 | blank input empties slot `index` at once and changes no other slot; other input schedules a lookup with the current list as snapshot; the input is returned unchanged |
| AddRecipe.AddRecipeForm.CompleteInputChange | src/pages/AddRecipe.js:36-40 | the list becomes the captured snapshot with only slot `index` replaced by the options; the current list is not read |
| AddRecipe.AddRecipeForm.HandleIngredientNameChange | src/pages/AddRecipe.js:46-50 | row `index` gets the selected value as name, or `''` for a cleared selection; its quantity and all other rows are kept |
| AddRecipe.AddRecipeForm.HandleIngredientQuantityChange | src/pages/AddRecipe.js:53-57 | row `index` gets the text verbatim as quantity; its name and all other rows are kept |
| AddRecipe.AddRecipeForm.AddIngredientField | src/pages/AddRecipe.js:60-63 | one empty row and one empty list are appended, earlier ones kept, equal lengths stay equal |
| AddRecipe.AddRecipeForm.HandleSubmit | src/pages/AddRecipe.js:66-84 | sending is a POST to `/creator/add-recipe` carrying the current fields and rows in order; sending changes no state |
| AddRecipe.AddRecipeForm.CompleteSubmit | src/pages/AddRecipe.js:85-98 | when the reply arrives, success gives back the initial state from whatever state then holds; failure leaves the state unchanged |
| AddRecipe.EditDuringSubmitIsWiped | src/pages/AddRecipe.js:78-90 | the request carries the name as sent, and a name typed before the successful reply is wiped |
| AddRecipe.CompletionAfterAddShrinksList | src/pages/AddRecipe.js:36-40 | a completion after an added row leaves two rows against one option list |
| AddRecipe.CrossRowLostUpdate | src/pages/AddRecipe.js:36-40 | of two lookups on different rows in flight together, the later completion erases the earlier row's options |
| AddRecipe.OutOfOrderRepliesKeepOlder | src/pages/AddRecipe.js:36-40 | when the reply to an older query arrives last, the row shows that older reply's options |
| AddRecipe.LateReplyRefillsClearedRow | src/pages/AddRecipe.js:28-40 | for any replies: the row shows the first reply's options, clearing the input empties them, and a reply still in flight then writes its own options |
| Recipes.WithRowField | src/pages/RecipeCreatorDashboard.js:35 | `row[field] = value` replaces one field and keeps the other |
| Recipes.WithFormField | src/pages/RecipeCreatorDashboard.js:194-224 | `{...form, [field]: value}` replaces one text field and keeps the other two |
| Recipes.Decimal | src/pages/RecipeCreatorDashboard.js:72 | `${id}` is a non-empty digit string without a leading zero |
| Recipes.DecimalRoundTrip | src/pages/RecipeCreatorDashboard.js:72 | reading back the printed id gives the id |
| Recipes.UpdateRecipePath | src/pages/RecipeCreatorDashboard.js:72 | the update path starts with `/creator/update-recipe/`; everything after that prefix is decimal digits with no leading zero, and reading them back gives the id |
| Recipes.UpdatePathIdentifiesRecipe | src/pages/RecipeCreatorDashboard.js:72 | different ids give different update paths, and no update path is the create path |
| CreatorDashboard.FetchSuggestions | src/pages/RecipeCreatorDashboard.js:24-31 | a request for every input, blank included; every reply entry becomes an option at its position; a failed call gives `[]` |
| CreatorDashboard.FirstMissingQuantity | src/pages/RecipeCreatorDashboard.js:259 | the first row that has a name but no quantity, or none exactly when every named row has a quantity |
| CreatorDashboard.FirstInvalid | src/pages/RecipeCreatorDashboard.js:191-260 | submission goes through exactly when name and instructions are non-empty and every named row has a quantity; the inputs are checked in document order: the name first, then the instructions, then a row's quantity |
| CreatorDashboard.UnnamedRowNeverBlocks | src/pages/RecipeCreatorDashboard.js:259 | inserting a row with empty name anywhere never changes whether the form may be submitted |
| CreatorDashboard.SubmissionExamples | src/pages/RecipeCreatorDashboard.js:259 | `[Egg without quantity, empty row]` is stopped at row 0; a lone empty row passes |
| CreatorDashboard.SubmitRequest | src/pages/RecipeCreatorDashboard.js:60-77 | PUT to the edited recipe's update path exactly when editing, else POST to the create path; the body carries the form and the rows in order |
| CreatorDashboard.Dashboard.constructor | src/pages/RecipeCreatorDashboard.js:8-13 | the form tab with an empty form, one empty row, `[[]]` and nothing being edited |
| CreatorDashboard.Dashboard.EditForm | src/pages/RecipeCreatorDashboard.js:194-224 | on the form tab, where the inputs are rendered, a text input's `onChange` replaces its field of `form` only |
| CreatorDashboard.Dashboard.SelectTab | src/pages/RecipeCreatorDashboard.js:136-160 | a sidebar button shows its tab and leaves the form, the rows, the option lists and the recipe being edited as they were |
| CreatorDashboard.Dashboard.HandleIngredientChange | src/pages/RecipeCreatorDashboard.js:33-37 | on the form tab, only `field` of row `index` changes; the number of rows, the other field and the other rows are kept |
| CreatorDashboard.Dashboard.AddIngredientField | src/pages/RecipeCreatorDashboard.js:39-42 | on the form tab, appends an empty row and an empty list, so equal lengths stay equal |
| CreatorDashboard.Dashboard.HandleSelectInputChange | src/pages/RecipeCreatorDashboard.js:44-51 | on the form tab, every input schedules a lookup on the current list as snapshot and is returned unchanged |
| CreatorDashboard.Dashboard.CompleteSelectInput | src/pages/RecipeCreatorDashboard.js:45-49 | the list becomes the captured snapshot with slot `idx` set to the options |
| CreatorDashboard.Dashboard.ResetForm | src/pages/RecipeCreatorDashboard.js:53-58 | from any state, an empty form, one empty row, `[[]]` and nothing being edited |
| CreatorDashboard.Dashboard.StartEdit | src/pages/RecipeCreatorDashboard.js:105-110 | the form takes the recipe's fields; the rows become the recipe's, or one empty row; the recipe is being edited on the form tab; the option lists are unchanged |
| CreatorDashboard.Dashboard.HandleRecipeSubmit | src/pages/RecipeCreatorDashboard.js:60-77 | nothing is sent while a required input is empty; otherwise `SubmitRequest` of the current form, rows and edited recipe is sent; sending changes no state |
| CreatorDashboard.Dashboard.CompleteRecipeSubmit | src/pages/RecipeCreatorDashboard.js:78-83 | when the reply arrives, success resets the form from whatever state then holds and failure leaves it unchanged; the tab is kept |
| CreatorDashboard.EditDuringSubmitIsWiped | src/pages/RecipeCreatorDashboard.js:71-78 | a new recipe is sent as a POST; a recipe opened for editing before the successful reply is no longer being edited afterwards |
| CreatorDashboard.StartEditBreaksEqualLengths | src/pages/RecipeCreatorDashboard.js:105-110 | editing a two-row recipe on a fresh page leaves two rows against one option list |
| CreatorDashboard.LookupPastEndLeavesHole | src/pages/RecipeCreatorDashboard.js:44-51 | after editing a three-row recipe, a lookup on row 2 grows the list to three slots with a hole at row 1 |
| FindRecipes.FetchSuggestions | src/pages/FindRecipes.js:26-35 | on success the options are exactly the reply's string entries converted one by one, in order (`StringOptions`); so a string value is offered exactly when it is a reply entry, with label equal to value; a failed call gives `[]` |
| FindRecipes.RecipeSearch.constructor | src/pages/FindRecipes.js:8-14 | no selection, no ingredients, no options, empty input, nothing expanded |
| FindRecipes.RecipeSearch.HandleInputChange | src/pages/FindRecipes.js:37-40 | a changed empty input clears the options without a request; any other changed input, whitespace included, starts a lookup; an unchanged input does nothing |
| FindRecipes.RecipeSearch.CompleteLookup | src/pages/FindRecipes.js:39 | a settled lookup replaces the options wholesale |
| FindRecipes.RecipeSearch.HandleIngredientSelect | src/pages/FindRecipes.js:42-47 | a new selected value is appended and the selection cleared; a cleared or repeated selection changes nothing; no duplicates |
| FindRecipes.RecipeSearch.ToggleIngredients | src/pages/FindRecipes.js:103-105 | the expanded card becomes `Toggled` of the old one; nothing else changes |
| FindRecipes.SelectionsFromFreshPage | src/pages/FindRecipes.js:42-47 | from the empty list, any selections give a duplicate-free list of exactly the selected values, in order of first selection |
| FindRecipes.FindRequest | src/pages/FindRecipes.js:49-58 | no request for an empty list; otherwise `ingredientNames` is the list exactly |
| FindRecipes.Toggled | src/pages/FindRecipes.js:103-105 | card `id` ends expanded exactly when it was not expanded before; no other card stays expanded |
| FindRecipes.ToggleTwice | src/pages/FindRecipes.js:103-105 | toggling the same card twice restores the state when it was that card or none |
| FindRecipes.AddToFavorites | src/pages/FindRecipes.js:65-73 | no request exactly when the stored user id is absent or empty; otherwise an add of `{userId, recipeId}` |
| FindRecipes.RemoveFromFavorites | src/pages/FindRecipes.js:75-85 | no request exactly when the stored user id is absent or empty; otherwise a remove of `{userId, recipeId}` |
| AuthContext.SessionFrom | src/services/AuthContext.js:10 | a session exactly when both stored values are present and non-empty, made of those values |
| AuthContext.StoredSession | src/services/AuthContext.js:7-11 | the initial `auth` is `{userId, role}` from the two keys exactly when both are present and non-empty |
| AuthContext.StoreAfterLogin | src/services/AuthContext.js:13-17 | both keys written, other keys untouched; reading the store back gives the session exactly when both values are non-empty |
| AuthContext.StoreAfterLogout | src/services/AuthContext.js:19-23 | exactly the two keys removed, other keys untouched; nothing can be restored |
| AuthContext.AuthProvider.constructor | src/services/AuthContext.js:7-11 | `auth` is the session read from the store |
| AuthContext.AuthProvider.Login | src/services/AuthContext.js:13-17 | the store gets both keys and `auth` becomes `{userId, role}`, which a reload restores when both are non-empty |
| AuthContext.AuthProvider.Logout | src/services/AuthContext.js:19-23 | exactly the two keys are removed and `auth` becomes null, as a reload also gives |
| AuthContext.RestartRestoresSession | src/services/AuthContext.js:7-23 | a reload after login restores the same session; a reload after logout restores none |
| ProtectedRoute.Guard | src/services/ProtectedRoute.js:9-13 | children exactly when signed in with a role in `allowedRoles`; otherwise a redirect to `/login`, always so for no session or no allowed roles |
| Login.RouteForRole | src/pages/Login.js:22-30 | `RECIPE_CREATOR` goes to `/creator`, `HOME_COOK` to `/find-recipes`, `ADMIN` to `/admin`, any other role to `/` |
| Login.SubmitEffects | src/pages/Login.js:13-34 | on success `login` with the reply's session comes before the single navigation by role; on failure neither happens |

## Left out

- HTTP transport and the base URL (`src/services/api.js`). Each request is represented by its
  query or `Request` value, and each reply by a `Reply` input.
- Asynchrony. A promise callback is an explicit later method call that carries what its closure
  captured. The model has no event loop, and it does not model two React events handled before a
  re-render. `handleIngredientSelect` reads `ingredients` from its closure but appends through
  `prev`; the model treats these as the same list. A lookup or save that completes on
  either dashboard tab is modelled, but the form's handlers require the form tab
  (`activeTab === 'add'`, `src/pages/RecipeCreatorDashboard.js:187`), where the form is rendered.
- Row object aliasing. `updated[index].name = …` mutates the row object that the previous state
  also holds. After `startEdit`, that object is also the row inside the recipe in `myRecipes`.
  Rows here are values, so the mutation is not visible anywhere else.
- A reply body that is not a JSON array. `.filter` or `.map` would throw inside the `try`, and the
  result would be `[]`, as for `Err`. `Ok` always carries a sequence here.
- On the dashboard, the `Select`'s `onChange` (`option?.value || ''`). A non-string option value
  cannot be stored in a row, because rows hold strings. The row-field update itself is modelled.
- The login page's email/password form (`form` and `handleChange`, `src/pages/Login.js:7-11`).
  The credentials go to the server unchanged. Only the reply's effects are modelled
  (`Login.SubmitEffects`).
- Rendering, styling, `alert`, `confirm`, `console`, and react-select internals. The
  `|| []` display of a missing option list is kept only as the function `JsArray.SlotOrEmpty`.
- `Number(creatorId)` and its NaN case. `creatorId` is an `int` input.
- Recipes.UpdateRecipePath: a recipe `id` is an unbounded `nat` printed as plain decimal digits.
  JavaScript prints only integers below 10^21 this way (larger ones in exponent notation), and
  integers above 2^53 are not held exactly. The model matches the code only for ids below 2^53.
- Query-string encoding of `q=${input}`. The query is the raw input.
- JavaScript truthiness and `localStorage` stringification, beyond "absent or empty means
  missing". Values are strings, so storing `undefined` or a number is not modelled.
- The creator dashboard's logout, `localStorage.clear()`. It bypasses the session provider and is
  not part of the `AuthContext` model.
- The dashboard's redirect when no user id is stored, and `fetchMyRecipes`, `handleDelete`, the
  `myRecipes` list, the search `results` and the favourites list. These are fetch-and-display calls
  around the modelled state.
- `src/pages/AdminDashboard.js`, `src/pages/Register.js` and `src/App.js`. They are record-editing
  glue and a declarative route table, and they are not part of this model. The route guard itself
  is `ProtectedRoute.Guard`.
- The search page's expand-favourites toggle (`showFavorites`): a boolean negation with no further
  logic.
