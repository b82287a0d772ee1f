/** Records shared by the recipe authoring workflow: identifiers, the incoming
    payload and the two stored tables (recipes and recipe/ingredient links). */
module Types {

  type UserId = int
  type TagId = int
  type IngredientId = int
  type RecipeId = nat

  datatype Option<T> = None | Some(value: T)

  /** The serializer's two validation failures plus the nested amount check. */
  datatype ValidationError =
    | DuplicateIngredient   // an ingredient is listed twice
    | InvalidCookingTime    // cooking time must be above 0
    | InvalidAmount         // an amount is below 1

  datatype Result<T> = Ok(value: T) | Err(error: ValidationError)

  /** An `id` value as it appears in the request body: a whole JSON number or
      a JSON string. */
  datatype RawId = Number(n: int) | Text(s: string)

  /** One element of the raw `ingredients` list as the client sent it:
      `{"id": ..., "amount": ...}`. */
  datatype RawIngredient = RawIngredient(id: RawId, amount: int)

  predicate IsDigit(c: char) { '0' <= c <= '9' }

  /** The value of a string of decimal digits. */
  function DigitsValue(s: string): (v: nat)
    requires forall k :: 0 <= k < |s| ==> IsDigit(s[k])
    ensures |s| == 1 ==> v == s[0] as int - '0' as int
  {
    if s == [] then 0
    else
      assert IsDigit(s[|s| - 1]);
      DigitsValue(s[..|s| - 1]) * 10 + (s[|s| - 1] as int - '0' as int)
  }

  /** Leading zeros do not change the value of a digit string. */
  lemma {:induction false} LeadingZeroIgnored(s: string)
    requires forall k :: 0 <= k < |s| ==> IsDigit(s[k])
    ensures DigitsValue(['0'] + s) == DigitsValue(s)
  {
    if s != [] {
      var front := s[..|s| - 1];
      assert (['0'] + s)[..|s|] == ['0'] + front;
      LeadingZeroIgnored(front);
    }
  }

  /** The primary key a raw `id` looks up: a number is used as it is, a
      string of decimal digits is converted to its integer value, and any
      other string names no ingredient. */
  function PrimaryKey(id: RawId): (pk: Option<IngredientId>)
    ensures id.Number? ==> pk == Some(id.n)
    ensures pk.None? <==> id.Text? && (id.s == [] || exists k :: 0 <= k < |id.s| && !IsDigit(id.s[k]))
    ensures id.Text? && pk.Some? ==> pk == Some(DigitsValue(id.s))
  {
    match id
    case Number(n) => Some(n)
    case Text(s) =>
      if s != [] && forall k :: 0 <= k < |s| ==> IsDigit(s[k]) then Some(DigitsValue(s)) else None
  }

  /** One element of the validated `ingredients` list: the `id` field has been
      resolved to the ingredient it names (stored under `ingredient`). */
  datatype IngredientItem = IngredientItem(ingredient: IngredientId, amount: int)

  /** Validated data of a create or update request. A field the request did not
      carry is `None` (a partial update). */
  datatype Payload = Payload(
    name: Option<string>,
    image: Option<string>,
    text: Option<string>,
    cookingTime: Option<int>,
    tags: Option<seq<TagId>>,
    ingredients: Option<seq<IngredientItem>>)

  /** A row of the recipe/ingredient link table. */
  datatype Link = Link(recipe: RecipeId, ingredient: IngredientId, amount: int)

  /** A stored recipe: its author, scalar fields and tag association set. */
  datatype Recipe = Recipe(
    author: UserId,
    name: string,
    image: string,
    text: string,
    cookingTime: int,
    tags: set<TagId>)

  /** Catalog entry of an ingredient. */
  datatype Ingredient = Ingredient(name: string, measurementUnit: string)

  /** One entry of the read view's `ingredients` list. */
  datatype IngredientView = IngredientView(id: IngredientId, name: string, measurementUnit: string, amount: int)

  /** The validated item list corresponds, entry by entry, to the raw list:
      each `id` resolved by primary key to the item's ingredient, each amount kept. */
  predicate Resolves(raw: seq<RawIngredient>, items: seq<IngredientItem>)
  {
    |raw| == |items| &&
    forall k :: 0 <= k < |raw| ==>
      PrimaryKey(raw[k].id) == Some(items[k].ingredient) && items[k].amount == raw[k].amount
  }
}
