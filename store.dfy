/** The stored side of the authoring workflow: the recipe table and the
    recipe/ingredient link table, changed in place by the serializer's
    create, update and add-ingredients steps. */
module RecipeStore {
  import opened Types
  import opened RecipeValidation
  import opened LinkTable

  /** The tag association set that `tags.set(...)` leaves behind. */
  function TagSet(tags: seq<TagId>): (s: set<TagId>)
    ensures forall t :: t in s <==> t in tags
  {
    set t | t in tags
  }

  class Database {
    var links: seq<Link>
    var recipes: map<RecipeId, Recipe>
    var nextId: RecipeId

    /** No link points at a missing recipe, and every stored id is below the
        next id to hand out. */
    ghost predicate Valid()
      reads this
    {
      (forall l :: l in links ==> l.recipe in recipes) &&
      (forall id :: id in recipes ==> id < nextId)
    }

    constructor ()
      ensures Valid()
      ensures links == [] && recipes == map[] && nextId == 0
    {
      links, recipes, nextId := [], map[], 0;
    }

    /** Bulk insert of one link per item for `recipe`; nothing already in the
        table changes and the table invariant is kept. */
    method AddIngredients(recipe: RecipeId, items: seq<IngredientItem>)
      requires Valid()
      requires recipe in recipes
      modifies this`links
      ensures Valid()
      ensures links == old(links) + Batch(recipe, items)
      ensures LinksOf(links, recipe) == LinksOf(old(links), recipe) + Batch(recipe, items)
      ensures forall s :: s != recipe ==> LinksOf(links, s) == LinksOf(old(links), s)
      ensures old(AmountsPositive(links)) && AmountsValid(items) ==> AmountsPositive(links)
    {
      ghost var before := links;
      links := links + Batch(recipe, items);
      forall s ensures LinksOf(links, s) == LinksOf(before, s) + (if s == recipe then Batch(recipe, items) else []) {
        LinksOfConcat(before, Batch(recipe, items), s);
        LinksOfBatch(recipe, items, s);
      }
      if AmountsPositive(before) && AmountsValid(items) {
        BatchAmountsPositive(recipe, items);
      }
      var batch := Batch(recipe, items);
      forall l | l in links ensures l.recipe in recipes {
        if l !in before {
          var k :| 0 <= k < |batch| && batch[k] == l;
        }
      }
    }

    /** A new recipe authored by `author`, its links the submitted items and
        its tag set the submitted tags; no other recipe or link changes. */
    method Create(author: UserId, data: Payload) returns (id: RecipeId)
      requires Valid()
      requires data.name.Some? && data.image.Some? && data.text.Some? && data.cookingTime.Some?
      requires data.tags.Some? && data.ingredients.Some?
      modifies this
      ensures Valid()
      ensures id == old(nextId) && id !in old(recipes)
      ensures nextId == old(nextId) + 1
      ensures recipes == old(recipes)[id := Recipe(author, data.name.value, data.image.value,
                                                   data.text.value, data.cookingTime.value,
                                                   TagSet(data.tags.value))]
      ensures links == old(links) + Batch(id, data.ingredients.value)
      ensures LinksOf(links, id) == Batch(id, data.ingredients.value)
      ensures forall s :: s != id ==> LinksOf(links, s) == LinksOf(old(links), s)
      ensures old(AmountsPositive(links)) && AmountsValid(data.ingredients.value) ==> AmountsPositive(links)
    {
      id := nextId;
      nextId := nextId + 1;
      LinksOfAbsent(links, id);
      recipes := recipes[id := Recipe(author, data.name.value, data.image.value,
                                      data.text.value, data.cookingTime.value, {})];
      AddIngredients(id, data.ingredients.value);
      recipes := recipes[id := recipes[id].(tags := TagSet(data.tags.value))];
    }

    /** The generic field copy that ends an update: every scalar field the
        payload carries overwrites the stored one. */
    method SaveFields(instance: RecipeId, data: Payload)
      requires instance in recipes
      modifies this`recipes
      ensures instance in recipes && recipes == old(recipes)[instance := recipes[instance]]
      ensures var was, now := old(recipes[instance]), recipes[instance];
        now.author == was.author && now.tags == was.tags &&
        now.name == (if data.name.Some? then data.name.value else was.name) &&
        now.image == (if data.image.Some? then data.image.value else was.image) &&
        now.text == (if data.text.Some? then data.text.value else was.text) &&
        now.cookingTime == (if data.cookingTime.Some? then data.cookingTime.value else was.cookingTime)
    {
      var row := recipes[instance];
      if data.name.Some? { row := row.(name := data.name.value); }
      if data.image.Some? { row := row.(image := data.image.value); }
      if data.text.Some? { row := row.(text := data.text.value); }
      if data.cookingTime.Some? { row := row.(cookingTime := data.cookingTime.value); }
      recipes := recipes[instance := row];
    }

    /** The `ingredients` branch of an update: delete every link of `instance`,
        then insert the new batch. Other recipes' links keep their order. */
    method ReplaceIngredients(instance: RecipeId, items: seq<IngredientItem>)
      requires Valid()
      requires instance in recipes
      modifies this`links
      ensures Valid()
      ensures links == RemoveLinksOf(old(links), instance) + Batch(instance, items)
      ensures LinksOf(links, instance) == Batch(instance, items)
      ensures forall s :: s != instance ==> LinksOf(links, s) == LinksOf(old(links), s)
      ensures forall l :: l in links ==> l in old(links) || l.recipe == instance
      ensures old(AmountsPositive(links)) && AmountsValid(items) ==> AmountsPositive(links)
    {
      ghost var before := links;
      links := RemoveLinksOf(links, instance);
      RemoveLinksOfCounts(before, instance);
      forall s ensures LinksOf(links, s) == (if s == instance then [] else LinksOf(before, s)) {
        LinksOfRemoved(before, instance, s);
      }
      AddIngredients(instance, items);
    }

    /** The `tags` branch of an update: the tag set is replaced, not merged. */
    method SetTags(instance: RecipeId, tags: seq<TagId>)
      requires instance in recipes
      modifies this`recipes
      ensures recipes == old(recipes)[instance := old(recipes[instance]).(tags := TagSet(tags))]
    {
      recipes := recipes[instance := recipes[instance].(tags := TagSet(tags))];
    }

    /** Update of an existing recipe. A present `ingredients` list replaces all
        of the recipe's links; a present `tags` list replaces the tag set;
        scalar fields are copied when present; everything else stays as it was. */
    method Update(instance: RecipeId, data: Payload)
      requires Valid()
      requires instance in recipes
      modifies this
      ensures Valid()
      ensures nextId == old(nextId)
      ensures instance in recipes && recipes == old(recipes)[instance := recipes[instance]]
      ensures data.ingredients.Some? ==>
        links == RemoveLinksOf(old(links), instance) + Batch(instance, data.ingredients.value)
      ensures data.ingredients.Some? ==> LinksOf(links, instance) == Batch(instance, data.ingredients.value)
      ensures data.ingredients.None? ==> links == old(links)
      ensures forall s :: s != instance ==> LinksOf(links, s) == LinksOf(old(links), s)
      ensures var was, now := old(recipes[instance]), recipes[instance];
        now.author == was.author &&
        now.tags == (if data.tags.Some? then TagSet(data.tags.value) else was.tags) &&
        now.name == (if data.name.Some? then data.name.value else was.name) &&
        now.image == (if data.image.Some? then data.image.value else was.image) &&
        now.text == (if data.text.Some? then data.text.value else was.text) &&
        now.cookingTime == (if data.cookingTime.Some? then data.cookingTime.value else was.cookingTime)
      ensures old(AmountsPositive(links)) && (data.ingredients.Some? ==> AmountsValid(data.ingredients.value)) ==>
        AmountsPositive(links)
    {
      ghost var links0 := links;
      if data.ingredients.Some? {
        ReplaceIngredients(instance, data.ingredients.value);
      }
      assert forall s :: s != instance ==> LinksOf(links, s) == LinksOf(links0, s);
      if data.tags.Some? {
        SetTags(instance, data.tags.value);
      }
      SaveFields(instance, data);
    }
  }
}
