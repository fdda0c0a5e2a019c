/** The recipe records the authoring screens edit and the requests they send to the recipe API. */
module Recipes {

  /** One ingredient row `{ name, quantity }`; both are the text of their inputs. */
  datatype Row = Row(name: string, quantity: string)

  /** The row `{ name: '', quantity: '' }` every new slot starts as. */
  const EmptyRow := Row("", "")

  /** The two fields of a row, the `field` argument of `handleIngredientChange`. */
  datatype RowField = Name | Quantity

  /** `row[field] = value`: one field replaced, the other kept. */
  function WithRowField(row: Row, field: RowField, value: string): (r: Row)
    ensures field == Name ==> r.name == value && r.quantity == row.quantity
    ensures field == Quantity ==> r.quantity == value && r.name == row.name
  {
    match field
    case Name => row.(name := value)
    case Quantity => row.(quantity := value)
  }

  /** The three text fields of a recipe form. */
  datatype FormField = RecipeName | Instructions | ImageUrl

  /** The creator dashboard's `form` state `{ name, instructions, imageUrl }`. */
  datatype RecipeForm = RecipeForm(name: string, instructions: string, imageUrl: string)

  const EmptyForm := RecipeForm("", "", "")

  /** `setForm({ ...form, [field]: value })`. */
  function WithFormField(form: RecipeForm, field: FormField, value: string): (r: RecipeForm)
    ensures field == RecipeName ==> r == RecipeForm(value, form.instructions, form.imageUrl)
    ensures field == Instructions ==> r == RecipeForm(form.name, value, form.imageUrl)
    ensures field == ImageUrl ==> r == RecipeForm(form.name, form.instructions, value)
  {
    match field
    case RecipeName => form.(name := value)
    case Instructions => form.(instructions := value)
    case ImageUrl => form.(imageUrl := value)
  }

  /** A recipe as the server lists it under "My Recipes". */
  datatype Recipe = Recipe(id: nat, name: string, instructions: string, imageUrl: string, ingredients: seq<Row>)

  /** The JSON body of a create or update request. */
  datatype Payload = Payload(creatorId: int, name: string, instructions: string, imageUrl: string, ingredients: seq<Row>)

  datatype Verb = Post | Put

  datatype Request = Request(verb: Verb, path: string, body: Payload)

  const AddRecipePath := "/creator/add-recipe"

  const UpdateRecipePrefix := "/creator/update-recipe/"

  predicate IsDigit(c: char)
  {
    '0' <= c <= '9'
  }

  function DigitChar(d: nat): (c: char)
    requires d < 10
    ensures IsDigit(c)
  {
    "0123456789"[d]
  }

  function DigitValue(c: char): nat
    requires IsDigit(c)
  {
    (c as int) - ('0' as int)
  }

  /** The decimal text of `n`, as a template literal `${n}` prints a non-negative integer. */
  function Decimal(n: nat): (r: string)
    ensures r != [] && forall i :: 0 <= i < |r| ==> IsDigit(r[i])
    ensures r[0] == '0' ==> r == "0"
  {
    (if n < 10 then [] else Decimal(n / 10)) + [DigitChar(n % 10)]
  }

  /** Reads a string of decimal digits as a number. */
  function DecimalValue(s: string): nat
    requires forall i :: 0 <= i < |s| ==> IsDigit(s[i])
  {
    if s == [] then 0 else 10 * DecimalValue(s[..|s| - 1]) + DigitValue(s[|s| - 1])
  }

  /** Printing an id and reading the digits back gives the id: the decimal text names one id. */
  lemma {:induction false} DecimalRoundTrip(n: nat)
    ensures DecimalValue(Decimal(n)) == n
  {
    var r := Decimal(n);
    assert r[|r| - 1] == DigitChar(n % 10);
    assert DigitValue(DigitChar(n % 10)) == n % 10 by {
      assert "0123456789"[n % 10] as int == '0' as int + n % 10;
    }
    if n >= 10 {
      assert r[..|r| - 1] == Decimal(n / 10);
      DecimalRoundTrip(n / 10);
    } else {
      assert r[..|r| - 1] == [];
    }
  }

  /** `/creator/update-recipe/${editing.id}`. */
  function UpdateRecipePath(id: nat): (path: string)
    ensures |path| > |UpdateRecipePrefix| && path[..|UpdateRecipePrefix|] == UpdateRecipePrefix
    ensures forall i :: |UpdateRecipePrefix| <= i < |path| ==> IsDigit(path[i])
    ensures DecimalValue(path[|UpdateRecipePrefix|..]) == id
    ensures path[|UpdateRecipePrefix|] == '0' ==> |path| == |UpdateRecipePrefix| + 1
  {
    var path := UpdateRecipePrefix + Decimal(id);
    assert path[|UpdateRecipePrefix|..] == Decimal(id);
    DecimalRoundTrip(id);
    path
  }

  /** Two different recipes are never updated through the same path, and no update path is the
      create path. */
  lemma UpdatePathIdentifiesRecipe(a: nat, b: nat)
    ensures UpdateRecipePath(a) == UpdateRecipePath(b) ==> a == b
    ensures UpdateRecipePath(a) != AddRecipePath
  {
    if UpdateRecipePath(a) == UpdateRecipePath(b) {
      var p := |UpdateRecipePrefix|;
      assert Decimal(a) == UpdateRecipePath(a)[p..];
      assert Decimal(b) == UpdateRecipePath(b)[p..];
      DecimalRoundTrip(a);
      DecimalRoundTrip(b);
    }
    assert UpdateRecipePath(a)[9] != AddRecipePath[9];
  }
}
