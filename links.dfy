/** The recipe/ingredient link table as a sequence of rows, and the pure
    operations the serializer performs on it: the per-recipe filter, the
    per-recipe delete, the batch built from a validated item list, and the
    read projection of one recipe's links. */
module LinkTable {
  import opened Types
  import opened RecipeValidation

  /** The links whose recipe is `r`, in table order (a filter on `recipe`). */
  function LinksOf(links: seq<Link>, r: RecipeId): (own: seq<Link>)
    ensures |own| <= |links|
    ensures forall k :: 0 <= k < |own| ==> own[k].recipe == r
  {
    if links == [] then []
    else if links[0].recipe == r then [links[0]] + LinksOf(links[1..], r)
    else LinksOf(links[1..], r)
  }

  /** The filter keeps every link of `r` as often as the table holds it, and
      no other link. */
  lemma {:induction false} LinksOfCounts(links: seq<Link>, r: RecipeId)
    ensures forall l :: multiset(LinksOf(links, r))[l] == if l.recipe == r then multiset(links)[l] else 0
    ensures forall l :: l in LinksOf(links, r) <==> l in links && l.recipe == r
  {
    if links != [] {
      assert links == [links[0]] + links[1..];
      LinksOfCounts(links[1..], r);
    }
  }

  /** The table after deleting every link of recipe `r`. */
  function RemoveLinksOf(links: seq<Link>, r: RecipeId): (rest: seq<Link>)
    ensures |rest| <= |links|
    ensures forall k :: 0 <= k < |rest| ==> rest[k].recipe != r
  {
    if links == [] then []
    else if links[0].recipe == r then RemoveLinksOf(links[1..], r)
    else [links[0]] + RemoveLinksOf(links[1..], r)
  }

  /** The delete removes every link of `r`, and nothing else. */
  lemma {:induction false} RemoveLinksOfCounts(links: seq<Link>, r: RecipeId)
    ensures forall l :: multiset(RemoveLinksOf(links, r))[l] == if l.recipe == r then 0 else multiset(links)[l]
    ensures forall l :: l in RemoveLinksOf(links, r) <==> l in links && l.recipe != r
  {
    if links != [] {
      assert links == [links[0]] + links[1..];
      RemoveLinksOfCounts(links[1..], r);
    }
  }

  /** One new link per validated item, in item order, all for recipe `r`. */
  function Batch(r: RecipeId, items: seq<IngredientItem>): (b: seq<Link>)
    ensures |b| == |items|
    ensures forall k :: 0 <= k < |items| ==> b[k] == Link(r, items[k].ingredient, items[k].amount)
  {
    if items == [] then []
    else [Link(r, items[0].ingredient, items[0].amount)] + Batch(r, items[1..])
  }

  /** Every link carries an amount of at least 1. */
  predicate AmountsPositive(links: seq<Link>)
  {
    forall l :: l in links ==> l.amount >= 1
  }

  /** No ingredient appears on two links of the sequence. */
  predicate DistinctIngredients(links: seq<Link>)
  {
    forall i, j :: 0 <= i < j < |links| ==> links[i].ingredient != links[j].ingredient
  }

  /** Filtering a concatenation filters each part, keeping the order. */
  lemma {:induction false} LinksOfConcat(a: seq<Link>, b: seq<Link>, r: RecipeId)
    ensures LinksOf(a + b, r) == LinksOf(a, r) + LinksOf(b, r)
  {
    if a == [] {
      assert a + b == b;
    } else {
      assert (a + b)[0] == a[0];
      assert (a + b)[1..] == a[1..] + b;
      LinksOfConcat(a[1..], b, r);
      if a[0].recipe == r {
        assert [a[0]] + (LinksOf(a[1..], r) + LinksOf(b, r)) == ([a[0]] + LinksOf(a[1..], r)) + LinksOf(b, r);
      }
    }
  }

  /** After the delete, recipe `r` has no links and every other recipe keeps
      exactly its links, in the same order. */
  lemma {:induction false} LinksOfRemoved(links: seq<Link>, r: RecipeId, s: RecipeId)
    ensures LinksOf(RemoveLinksOf(links, r), s) == if s == r then [] else LinksOf(links, s)
  {
    if links != [] {
      LinksOfRemoved(links[1..], r, s);
      if links[0].recipe != r {
        LinksOfConcat([links[0]], RemoveLinksOf(links[1..], r), s);
      }
    }
  }

  /** A batch for `r` is all of `r`'s links in it and none of any other recipe's. */
  lemma {:induction false} LinksOfBatch(r: RecipeId, items: seq<IngredientItem>, s: RecipeId)
    ensures LinksOf(Batch(r, items), s) == if s == r then Batch(r, items) else []
  {
    if items != [] {
      LinksOfBatch(r, items[1..], s);
      LinksOfConcat([Link(r, items[0].ingredient, items[0].amount)], Batch(r, items[1..]), s);
    }
  }

  /** A recipe with no row in the table has no links. */
  lemma LinksOfAbsent(links: seq<Link>, r: RecipeId)
    requires forall l :: l in links ==> l.recipe != r
    ensures LinksOf(links, r) == []
  {
  }

  /** Items that passed the amount check give links with positive amounts. */
  lemma BatchAmountsPositive(r: RecipeId, items: seq<IngredientItem>)
    requires AmountsValid(items)
    ensures AmountsPositive(Batch(r, items))
  {
  }

  /** A validated list that names no ingredient twice gives a batch in which
      no ingredient is linked twice. */
  lemma DistinctBatch(r: RecipeId, items: seq<IngredientItem>)
    requires !HasDuplicateIngredients(items)
    ensures DistinctIngredients(Batch(r, items))
  {
  }

  /** The read view of one link: the ingredient's id, name and unit from the
      catalog, and the link's amount. */
  function View(catalog: map<IngredientId, Ingredient>, l: Link): IngredientView
    requires l.ingredient in catalog
  {
    IngredientView(l.ingredient, catalog[l.ingredient].name, catalog[l.ingredient].measurementUnit, l.amount)
  }

  /** The `ingredients` list of a recipe's read view: the links of `obj`, in
      table order, each rendered with its catalog entry. */
  function GetIngredients(links: seq<Link>, catalog: map<IngredientId, Ingredient>, obj: RecipeId): (views: seq<IngredientView>)
    requires forall l :: l in LinksOf(links, obj) ==> l.ingredient in catalog
    ensures |views| == |LinksOf(links, obj)|
    ensures forall k :: 0 <= k < |views| ==>
      LinksOf(links, obj)[k].recipe == obj && views[k] == View(catalog, LinksOf(links, obj)[k])
  {
    var own := LinksOf(links, obj);
    seq(|own|, k requires 0 <= k < |own| => assert own[k] in own; View(catalog, own[k]))
  }
}
