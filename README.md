# Recipe authoring workflow of culinary-edem, in Dafny

This project models the recipe-authoring part of the culinary-edem backend: the
write serializer for recipes and the part of the read serializer that lists a
recipe's ingredients.

The serializer does four things, and each is modelled here:

- It checks a submitted payload. Field validation runs first: an amount below
  1, or an id that names no ingredient, is rejected there. Then `validate`
  rejects a repeated raw id, and after that a cooking time below 1.
- It writes the recipe together with its rows in the recipe/ingredient link
  table.
- On update, it replaces a recipe's links and its tag set wholesale.
- It reads back the links of one recipe.

The database is replaced by a `Database` object with these fields:

- `links`: the link table, a sequence of `(recipe, ingredient, amount)` rows.
- `recipes`: a map from recipe id to its author, scalar fields and tag set.
- `nextId`: the counter that hands out new recipe ids.

`Valid()` is the table invariant. No link points at a missing recipe, and every
stored id is below `nextId`.

Modules:

- `Types` (types.dfy): identifiers, the request payload with optional fields,
  raw and validated ingredient entries, the two table records, and primary-key
  resolution of a raw `id`.
- `RecipeValidation` (validation.dfy): the amount check and the payload check
  (`Validate`). The payload check is a loop over the raw ingredient list. It is
  proved equal to the predicate `HasDuplicateIds` and to an independent
  recursive reading, `HasRepeat`. This file also holds the corrected check
  described under Findings.
- `LinkTable` (links.dfy): pure operations on the link table. These are the
  per-recipe filter (what `get_ingredients` reads), the per-recipe delete, the
  batch that `add_ingredients` inserts, and the read projection. The lemmas
  state order and "nothing else changes".
- `RecipeStore` (store.dfy): the `Database` class. Its methods `AddIngredients`,
  `Create` and `Update` change the tables in place. Their postconditions give
  the whole new state in terms of the `LinkTable` functions. Each method that
  changes the link table keeps `Valid()`.

Inputs from outside the serializer become parameters:

- The requesting user is the `author` argument of `Create`.
- The ingredient catalog is a `map` argument of `GetIngredients`.
- The raw request body's `ingredients` list is the `raw` argument of `Validate`.

## Model

| member | source | states |
|---|---|---|
| `RecipeValidation.ValidateAmount` | backend/src/recipes/serializers.py:87-91 | the amount is refused exactly when it is below 1, with the amount error; otherwise it passes through unchanged |
| `RecipeValidation.Validate` | backend/src/recipes/serializers.py:126-137 | the duplicate error comes back exactly when some raw id occurs twice, whatever the amounts. The cooking-time error comes back exactly when there is no duplicate and the cooking time is below 1, so the duplicate error wins when both fail, and the cooking time need not be present when an id repeats. Otherwise the data comes back unchanged. The loop invariants say that the list of seen ids is the ids so far, in input order, without repeats |
| `RecipeValidation.Ids` | backend/src/recipes/serializers.py:128-133 | the ids of the raw list, one per entry, in input order (the list the loop builds) |
| `RecipeValidation.HasRepeatIffNotDistinct` | backend/src/recipes/serializers.py:128-133 | the left-to-right reading ("this id is already among the earlier ones") holds exactly when the id list is not duplicate-free |
| `RecipeValidation.HasDuplicateIdsIffHasRepeat` | backend/src/recipes/serializers.py:129-133 | the pairwise duplicate predicate that specifies `Validate` agrees with the recursive left-to-right reading |
| `RecipeValidation.DuplicatesIgnoreAmounts` | backend/src/recipes/serializers.py:130-132 | two raw lists with the same ids are judged alike, whatever their amounts |
| `RecipeValidation.SpellingsSlipPastDuplicateCheck` | backend/src/recipes/serializers.py:129-133 | the raw list `3`, `"3"` resolves to two items for ingredient 3, yet the check as written sees no duplicate |
| `RecipeValidation.ResolvedCheckCoversRaw` | backend/src/recipes/serializers.py:129-133 | every list the check as written rejects is also rejected by the check on resolved ingredients |
| `RecipeValidation.LeadingZeroSlipsPastDuplicateCheck` | backend/src/recipes/serializers.py:129-133 | the raw list `"03"`, `"3"` resolves to two items for ingredient 3, yet the check as written sees no duplicate |
| `RecipeValidation.ChecksAgreeOnNumericIds` | backend/src/recipes/serializers.py:129-133 | when every raw id is a whole JSON number, both checks reject the same lists |
| `RecipeValidation.ValidateResolved` | backend/src/recipes/serializers.py:126-137 | the corrected check. The duplicate error comes back exactly when two validated items name the same ingredient. The cooking-time error and the unchanged result are as in `Validate` |
| `Types.PrimaryKey` | backend/src/recipes/serializers.py:79-81 | a whole JSON number is used as the key as it is. A non-empty string of decimal digits looks up `DigitsValue` of that string. Any other string names no ingredient |
| `Types.DigitsValue` | backend/src/recipes/serializers.py:79-81 | the integer value of a decimal digit string; a single digit stands for itself |
| `Types.LeadingZeroIgnored` | backend/src/recipes/serializers.py:79-81 | a leading `0` does not change the key a digit string looks up |
| `LinkTable.LinksOf` | backend/src/recipes/serializers.py:71-72 | every returned link belongs to the given recipe, and there are no more of them than the table holds |
| `LinkTable.LinksOfCounts` | backend/src/recipes/serializers.py:72 | the filter keeps each link of the given recipe exactly as often as the table holds it, and no link of any other recipe |
| `LinkTable.GetIngredients` | backend/src/recipes/serializers.py:71-73 | one view per link of the recipe, in table order. Each view carries the link's ingredient id and amount and the catalog's name and unit |
| `LinkTable.RemoveLinksOf` | backend/src/recipes/serializers.py:119 | no remaining link belongs to the deleted recipe, and the table does not grow |
| `LinkTable.RemoveLinksOfCounts` | backend/src/recipes/serializers.py:119 | the delete drops every link of the recipe and keeps every other link as often as before |
| `LinkTable.Batch` | backend/src/recipes/serializers.py:141-146 | one link per item, in item order, each with the recipe and with that item's ingredient and amount |
| `LinkTable.LinksOfConcat` | backend/src/recipes/serializers.py:141 | filtering the table after an append gives the old filter followed by the filter of the new rows |
| `LinkTable.LinksOfRemoved` | backend/src/recipes/serializers.py:119 | after the delete the recipe has no links, and each other recipe keeps exactly its links, in order |
| `LinkTable.LinksOfBatch` | backend/src/recipes/serializers.py:140-146 | a batch holds all of its recipe's links and none of any other recipe's |
| `LinkTable.LinksOfAbsent` | backend/src/recipes/serializers.py:111-112 | a recipe that no row names has no links, so a new recipe starts with none |
| `LinkTable.BatchAmountsPositive` | backend/src/recipes/serializers.py:140-146 | items that passed the amount check give links whose amounts are all at least 1 |
| `LinkTable.DistinctBatch` | backend/src/recipes/serializers.py:140-146 | items that name no ingredient twice give a batch that links no ingredient twice |
| `RecipeStore.TagSet` | backend/src/recipes/serializers.py:113 | the stored tag set holds exactly the submitted tags |
| `RecipeStore.Database.AddIngredients` | backend/src/recipes/serializers.py:139-146 | for a stored recipe, the table invariant is kept and the table becomes the old table followed by the batch. The recipe's links gain the batch at the end. Every other recipe's links are unchanged. Positive amounts are kept when the items passed the amount check |
| `RecipeStore.Database.Create` | backend/src/recipes/serializers.py:107-114 | the new recipe takes the old id counter as its fresh id, and the counter moves up by one. It is stored with the requesting user as author, the submitted fields and the submitted tag set. Its links are exactly the submitted items. Other recipes and their links are unchanged, and the invariant is kept |
| `RecipeStore.Database.ReplaceIngredients` | backend/src/recipes/serializers.py:117-120 | for a stored recipe, the table invariant is kept and the recipe's links become exactly the new batch, by delete and then insert. Every other recipe's links are unchanged. No new row names another recipe |
| `RecipeStore.Database.SetTags` | backend/src/recipes/serializers.py:121-123 | the tag set is replaced by the submitted tags, not merged. Nothing else changes |
| `RecipeStore.Database.SaveFields` | backend/src/recipes/serializers.py:124 | each scalar field the payload carries overwrites the stored one. The author, the tags and the missing fields keep their values |
| `RecipeStore.Database.Update` | backend/src/recipes/serializers.py:116-124 | with `ingredients`, the recipe's links are exactly the new batch. Without `ingredients`, the link table is unchanged. In both cases other recipes' links are unchanged. With `tags`, the tag set is replaced; without, it is kept. Scalar fields are copied when present. The author, the other recipes and the id counter are unchanged, and the invariant is kept |

## Findings

| source | as written | input that shows it | evidently intended | confidence | as-written member | corrected member |
|---|---|---|---|---|---|---|
| backend/src/recipes/serializers.py:129-133 | the duplicate test compares the raw `id` values of the request body, while each `id` is resolved by primary-key lookup, which also accepts a digit string | `"ingredients": [{"id": 3, "amount": 2}, {"id": "3", "amount": 1}]` passes the test, and the recipe gets two links to ingredient 3 | reject two entries that resolve to the same ingredient | medium, not executed | `RecipeValidation.SpellingsSlipPastDuplicateCheck` | `RecipeValidation.ValidateResolved` |

`RecipeValidation.Validate` keeps the behaviour as written. `LinkTable.DistinctBatch`
states the "no ingredient linked twice" guarantee in terms of the corrected
predicate `HasDuplicateIngredients`. `ChecksAgreeOnNumericIds` shows that the two
checks differ only when some id is sent as a string, among whole-number and
string ids. `RecipeValidation.LeadingZeroSlipsPastDuplicateCheck` shows a second
spelling of this kind: `"03"` and `"3"`.

## Left out

- Declarative field mappings (`Meta.fields`, `SlugRelatedField`, the field
  declarations) hold no logic. The framework-level checks are taken as given:
  required fields, integer coercion of amounts, and that ingredient and tag ids
  exist. Validated items relate to the raw list through `Types.Resolves`.
- Types.PrimaryKey: models only plain ASCII digit strings. Django's integer
  conversion also accepts surrounding spaces, a sign, underscores between
  digits (`"1_0"`) and non-ASCII digits.
- Raw ids are only whole JSON numbers and strings (`Types.RawId`). Ids sent as
  non-integral numbers (`3.5`, `3.0`) or booleans are not modelled. Python's
  `==` makes `3` and `3.0` the same id in the duplicate test, and the key
  lookup may truncate `3.5` to key 3. So a list of plain numbers such as
  `[3, 3.5]` could also slip past the raw check; the model does not cover it.
- `get_is_favorited` and `get_is_in_shopping_cart` call `get_boolean_value` from
  `base/utils.py`, which is not part of this model.
- Image decoding (`Base64ImageField`) is a foreign library, so the image is an
  opaque string.
- `to_representation`, `TagSerializer` and `UserSerializer` only render through
  the read serializer. Of the read view, only the ingredient list
  (`GetIngredients`) is modelled.
- `IngredientCreateSerializer.create` (lines 93-96) is not on the create or
  update path, which inserts links through `add_ingredients`.
- backend/src/ingredients/serializers.py is a field list and has no behaviour.
- The query at serializers.py:72 has no `order_by`, and the model class that
  could set a default ordering is not part of this model. `LinkTable.LinksOf`
  takes the query's row order to be table (insertion) order, so "in table
  order" in `GetIngredients` and `LinksOfRemoved` rests on that reading.
- Transactions: the code has no transaction boundary around delete-then-insert
  or around create. The model runs the steps in order and claims no atomicity.
  Concurrent readers and storage errors are out of scope.
- The order of field validation before `validate` is not modelled: no member
  runs `ValidateAmount` and the key lookup ahead of `Validate`. A payload that
  repeats an id and has an amount below 1, such as
  `[{"id": 3, "amount": 0}, {"id": 3, "amount": 1}]`, gets the amount error in
  the source; `Validate` alone would give the duplicate error.
- RecipeValidation.Validate: requires a cooking time in the data unless a raw id
  repeats, and takes the raw list as a sequence. On a partial update without
  `cooking_time` the source fails with a key error, unless a repeated id was
  found first. Without a raw `ingredients` list it fails with a type
  error. Neither crash path is modelled.
- RecipeStore.Database.Update: its `ingredients`-absent branch cannot be reached
  through the serializer. `validate` runs on every update and iterates the raw
  `ingredients` list (serializers.py:127-129), so a request without that list
  ends in the type error before `update` runs. The branch is still modelled and
  proved as the method is written: without `ingredients` the link table stays
  unchanged.
- A missing request in the serializer context (an attribute error) is not
  modelled. The author is a parameter.
- The framework step that runs `validate` before `create` or `update` is not a
  member of the model. `Create` and `Update` take already validated data.
- Recipe ids come from the `nextId` counter, which stands for the database's
  key allocation. Unique constraints of the tables are not part of this model.
