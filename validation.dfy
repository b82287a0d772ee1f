/** Validation of a recipe payload: the per-item amount check and the
    payload-level check for repeated ingredients and the cooking time. */
module RecipeValidation {
  import opened Types

  /** The amount check of one ingredient entry: values below 1 are refused,
      every other value passes through unchanged. */
  function ValidateAmount(value: int): (r: Result<int>)
    ensures r.Ok? <==> value >= 1
    ensures r.Ok? ==> r.value == value
    ensures r.Err? ==> r.error == InvalidAmount
  {
    if value < 1 then Err(InvalidAmount) else Ok(value)
  }

  /** Every item of a validated list passed the amount check. */
  predicate AmountsValid(items: seq<IngredientItem>)
  {
    forall k :: 0 <= k < |items| ==> ValidateAmount(items[k].amount).Ok?
  }

  /** The ids of the raw list, in input order. */
  function Ids(raw: seq<RawIngredient>): (ids: seq<RawId>)
    ensures |ids| == |raw|
    ensures forall k :: 0 <= k < |raw| ==> ids[k] == raw[k].id
  {
    if raw == [] then [] else Ids(raw[..|raw| - 1]) + [raw[|raw| - 1].id]
  }

  predicate Distinct<T(==)>(s: seq<T>)
  {
    forall i, j :: 0 <= i < j < |s| ==> s[i] != s[j]
  }

  /** Some ingredient id occurs at least twice in the raw list; amounts play no part. */
  predicate HasDuplicateIds(raw: seq<RawIngredient>)
  {
    exists i, j :: 0 <= i < j < |raw| && raw[i].id == raw[j].id
  }

  /** An independent reading of "has a repeat": walking the ids left to right,
      some id was already among the ones seen before it. */
  predicate HasRepeat<T(==)>(ids: seq<T>)
  {
    if ids == [] then false
    else ids[|ids| - 1] in ids[..|ids| - 1] || HasRepeat(ids[..|ids| - 1])
  }

  lemma {:induction false} HasRepeatIffNotDistinct<T>(ids: seq<T>)
    ensures HasRepeat(ids) <==> !Distinct(ids)
  {
    if ids != [] {
      var n := |ids| - 1;
      var front := ids[..n];
      HasRepeatIffNotDistinct(front);
      if HasRepeat(ids) {
        if ids[n] in front {
          var i :| 0 <= i < n && front[i] == ids[n];
          assert ids[i] == ids[n];
        } else {
          assert HasRepeat(front);
          var i, j :| 0 <= i < j < |front| && front[i] == front[j];
          assert ids[i] == ids[j];
        }
      } else {
        forall i, j | 0 <= i < j < |ids| ensures ids[i] != ids[j] {
          if j == n {
            assert front[i] == ids[i];
          } else {
            assert front[i] == ids[i] && front[j] == ids[j];
          }
        }
      }
    }
  }

  /** The duplicate check is decided by the ids alone, in the recursive reading too. */
  lemma HasDuplicateIdsIffHasRepeat(raw: seq<RawIngredient>)
    ensures HasDuplicateIds(raw) <==> HasRepeat(Ids(raw))
  {
  }

  /** Two raw lists with the same ids, whatever their amounts, are judged alike. */
  lemma {:induction false} DuplicatesIgnoreAmounts(xs: seq<RawIngredient>, ys: seq<RawIngredient>)
    requires Ids(xs) == Ids(ys)
    ensures HasDuplicateIds(xs) <==> HasDuplicateIds(ys)
  {
  }

  /** The payload check: the first repeated ingredient id is rejected, then a
      cooking time below 1; otherwise the data comes back unchanged. `raw` is the
      request's raw `ingredients` list, `data` the validated fields. The cooking
      time is only read once no id repeats, so it may be absent when one does. */
  method Validate(raw: seq<RawIngredient>, data: Payload) returns (r: Result<Payload>)
    requires data.cookingTime.Some? || HasDuplicateIds(raw)
    ensures r == Err(DuplicateIngredient) <==> HasDuplicateIds(raw)
    ensures r == Err(InvalidCookingTime) <==> !HasDuplicateIds(raw) && data.cookingTime.value < 1
    ensures r.Ok? <==> !HasDuplicateIds(raw) && data.cookingTime.value >= 1
    ensures r.Ok? ==> r.value == data
  {
    var ingredientsList: seq<RawId> := [];
    for i := 0 to |raw|
      invariant ingredientsList == Ids(raw[..i])
      invariant Distinct(ingredientsList)
      invariant !HasDuplicateIds(raw[..i])
    {
      var ingredientId := raw[i].id;
      if ingredientId in ingredientsList {
        var k :| 0 <= k < |ingredientsList| && ingredientsList[k] == ingredientId;
        assert raw[k].id == raw[i].id;
        return Err(DuplicateIngredient);
      }
      ingredientsList := ingredientsList + [ingredientId];
      ghost var seen := raw[..i + 1];
      assert seen[..i] == raw[..i];
      forall p, q | 0 <= p < q < |seen| ensures seen[p].id != seen[q].id {
        assert seen[p].id == ingredientsList[p] && seen[q].id == ingredientsList[q];
      }
    }
    assert raw[..|raw|] == raw;
    if data.cookingTime.value < 1 {
      return Err(InvalidCookingTime);
    }
    return Ok(data);
  }

  /** Some ingredient is named by two items of a validated list. */
  predicate HasDuplicateIngredients(items: seq<IngredientItem>)
  {
    exists i, j :: 0 <= i < j < |items| && items[i].ingredient == items[j].ingredient
  }

  /** Every raw id is a whole JSON number. */
  predicate NumericIds(raw: seq<RawIngredient>)
  {
    forall k :: 0 <= k < |raw| ==> raw[k].id.Number?
  }

  /** The check as written compares raw ids, so two spellings of one key slip
      through: `3` and `"3"` are different raw ids naming the same ingredient. */
  lemma SpellingsSlipPastDuplicateCheck()
    ensures var raw := [RawIngredient(Number(3), 2), RawIngredient(Text("3"), 1)];
            var items := [IngredientItem(3, 2), IngredientItem(3, 1)];
            Resolves(raw, items) && !HasDuplicateIds(raw) && HasDuplicateIngredients(items)
  {
    var raw := [RawIngredient(Number(3), 2), RawIngredient(Text("3"), 1)];
    var items := [IngredientItem(3, 2), IngredientItem(3, 1)];
    assert PrimaryKey(raw[1].id) == Some(3);
    assert Resolves(raw, items);
    assert items[0].ingredient == items[1].ingredient;
  }

  /** Whatever the check as written rejects, a check on resolved ingredients
      rejects as well. */
  lemma ResolvedCheckCoversRaw(raw: seq<RawIngredient>, items: seq<IngredientItem>)
    requires Resolves(raw, items)
    requires HasDuplicateIds(raw)
    ensures HasDuplicateIngredients(items)
  {
  }

  /** A leading zero is a second spelling too: `"03"` and `"3"` are different
      raw ids naming the same ingredient. */
  lemma LeadingZeroSlipsPastDuplicateCheck()
    ensures var raw := [RawIngredient(Text("03"), 2), RawIngredient(Text("3"), 1)];
            var items := [IngredientItem(3, 2), IngredientItem(3, 1)];
            Resolves(raw, items) && !HasDuplicateIds(raw) && HasDuplicateIngredients(items)
  {
    var raw := [RawIngredient(Text("03"), 2), RawIngredient(Text("3"), 1)];
    var items := [IngredientItem(3, 2), IngredientItem(3, 1)];
    LeadingZeroIgnored("3");
    assert "03" == ['0'] + "3";
    assert PrimaryKey(raw[0].id) == Some(3);
    assert PrimaryKey(raw[1].id) == Some(3);
    assert Resolves(raw, items);
    assert items[0].ingredient == items[1].ingredient;
  }

  /** When every raw id is a whole number the two checks agree. */
  lemma ChecksAgreeOnNumericIds(raw: seq<RawIngredient>, items: seq<IngredientItem>)
    requires Resolves(raw, items)
    requires NumericIds(raw)
    ensures HasDuplicateIds(raw) <==> HasDuplicateIngredients(items)
  {
  }

  /** The payload check with the duplicate test on the resolved ingredients of
      the validated `ingredients` list instead of the raw ids. */
  method ValidateResolved(data: Payload) returns (r: Result<Payload>)
    requires data.ingredients.Some?
    requires data.cookingTime.Some? || HasDuplicateIngredients(data.ingredients.value)
    ensures r == Err(DuplicateIngredient) <==> HasDuplicateIngredients(data.ingredients.value)
    ensures r == Err(InvalidCookingTime) <==>
      !HasDuplicateIngredients(data.ingredients.value) && data.cookingTime.value < 1
    ensures r.Ok? <==> !HasDuplicateIngredients(data.ingredients.value) && data.cookingTime.value >= 1
    ensures r.Ok? ==> r.value == data
  {
    var items := data.ingredients.value;
    var seen: set<IngredientId> := {};
    for i := 0 to |items|
      invariant seen == set k | 0 <= k < i :: items[k].ingredient
      invariant !HasDuplicateIngredients(items[..i])
    {
      var ingredient := items[i].ingredient;
      if ingredient in seen {
        var k :| 0 <= k < i && items[k].ingredient == ingredient;
        return Err(DuplicateIngredient);
      }
      seen := seen + {ingredient};
      ghost var done := items[..i + 1];
      assert done[..i] == items[..i];
      forall p, q | 0 <= p < q < |done| ensures done[p].ingredient != done[q].ingredient {
        if q < i {
          assert done[p] == items[..i][p] && done[q] == items[..i][q];
        } else {
          assert done[p].ingredient in seen - {ingredient};
        }
      }
    }
    assert items[..|items|] == items;
    if data.cookingTime.value < 1 {
      return Err(InvalidCookingTime);
    }
    return Ok(data);
  }
}
