/** The "Build Your Pizza" page (pizzariaapp/src/components/BuildUrPizza.js):
    a build mode, an optional base pizza, a list of selected ingredients and
    a running total, and the cart line posted when the pizza is built. */
module CustomPizza {
  import opened Schema

  datatype BuildMode = Scratch | Base

  /** The picture used for a pizza built from scratch. */
  const ScratchImage: string := "https://images.unsplash.com/photo-1565299624946-b28f40a0ae38?w=400"

  /** The price a selected base contributes: its price, or 0 without one. */
  function BasePrice(base: Option<CatalogPizza>): int {
    if base.Some? then base.value.price else 0
  }

  /** The sum of the ingredients' prices. */
  function IngredientSum(s: seq<Ingredient>): int {
    if s == [] then 0 else s[0].price + IngredientSum(s[1..])
  }

  /** Some selected ingredient has this id. */
  predicate HasId(s: seq<Ingredient>, id: int) {
    exists x :: x in s && x.id == id
  }

  ghost predicate UniqueIds(s: seq<Ingredient>) {
    forall i, j :: 0 <= i < j < |s| ==> s[i].id != s[j].id
  }

  /** The selection without the ingredients that have this id. */
  function WithoutId(s: seq<Ingredient>, id: int): (r: seq<Ingredient>)
    ensures forall x :: x in r <==> x in s && x.id != id
    ensures !HasId(r, id)
  {
    if s == [] then []
    else if s[0].id != id then [s[0]] + WithoutId(s[1..], id)
    else WithoutId(s[1..], id)
  }

  /** The selection after `handleIngredientToggle(ing)`: an ingredient whose
      id is selected is dropped, any other is appended. */
  function Toggled(s: seq<Ingredient>, ing: Ingredient): (r: seq<Ingredient>)
    ensures HasId(r, ing.id) <==> !HasId(s, ing.id)
    ensures forall x: Ingredient :: x.id != ing.id ==> (x in r <==> x in s)
    ensures !HasId(s, ing.id) ==> |r| == |s| + 1 && r[..|s|] == s && r[|s|] == ing
  {
    if HasId(s, ing.id) then WithoutId(s, ing.id) else s + [ing]
  }

  /** The display names of the ingredients, in selection order. */
  function Names(s: seq<Ingredient>): (r: seq<string>)
    ensures |r| == |s|
    ensures forall k :: 0 <= k < |s| ==> r[k] == s[k].tname
  {
    if s == [] then [] else [s[0].tname] + Names(s[1..])
  }

  lemma {:induction false} IngredientSumAppend(a: seq<Ingredient>, b: seq<Ingredient>)
    ensures IngredientSum(a + b) == IngredientSum(a) + IngredientSum(b)
  {
    if a == [] {
      assert a + b == b;
    } else {
      assert (a + b)[1..] == a[1..] + b;
      IngredientSumAppend(a[1..], b);
    }
  }

  /** With distinct ids, the head's id does not occur in the tail, and the
      tail's ids are distinct. */
  lemma UniqueTail(s: seq<Ingredient>)
    requires s != [] && UniqueIds(s)
    ensures !HasId(s[1..], s[0].id) && UniqueIds(s[1..])
  {
    forall y | y in s[1..] ensures y.id != s[0].id {
      var k :| 0 <= k < |s[1..]| && s[1..][k] == y;
      assert s[k + 1] == y;
    }
    forall i, j | 0 <= i < j < |s[1..]| ensures s[1..][i].id != s[1..][j].id {
      assert s[1..][i] == s[i + 1] && s[1..][j] == s[j + 1];
    }
  }

  /** Dropping the one selected ingredient with an id subtracts its price and
      keeps the selected ids distinct. */
  lemma {:induction false} WithoutIdSum(s: seq<Ingredient>, x: Ingredient)
    requires UniqueIds(s) && x in s
    ensures IngredientSum(WithoutId(s, x.id)) == IngredientSum(s) - x.price
    ensures UniqueIds(WithoutId(s, x.id))
  {
    UniqueTail(s);
    if s[0] == x {
      WithoutIdOfAbsent(s[1..], x.id);
      assert WithoutId(s, x.id) == s[1..];
    } else {
      assert x in s[1..];
      assert s[0].id != x.id;
      WithoutIdSum(s[1..], x);
      var rest := WithoutId(s[1..], x.id);
      assert WithoutId(s, x.id) == [s[0]] + rest;
      assert !HasId(rest, s[0].id);
    }
  }

  /** Filtering out an id nobody has changes nothing. */
  lemma {:induction false} WithoutIdOfAbsent(s: seq<Ingredient>, id: int)
    requires !HasId(s, id)
    ensures WithoutId(s, id) == s
  {
    if s != [] {
      assert s[0] in s;
      assert !HasId(s[1..], id) by {
        forall y | y in s[1..] ensures y.id != id {
          assert y in s;
        }
      }
      WithoutIdOfAbsent(s[1..], id);
    }
  }

  /** The ingredients in `s` are entries of `catalog`, where an id names one entry. */
  ghost predicate FromCatalog(s: seq<Ingredient>, catalog: seq<Ingredient>) {
    UniqueIds(catalog) && forall x :: x in s ==> x in catalog
  }

  /** Toggling an ingredient from the catalog moves the sum of the selection by
      exactly its price, up or down, and keeps the selected ids distinct. */
  lemma ToggledSum(s: seq<Ingredient>, ing: Ingredient, catalog: seq<Ingredient>)
    requires UniqueIds(s) && FromCatalog(s, catalog) && ing in catalog
    ensures IngredientSum(Toggled(s, ing)) ==
      IngredientSum(s) + (if HasId(s, ing.id) then -ing.price else ing.price)
    ensures UniqueIds(Toggled(s, ing)) && FromCatalog(Toggled(s, ing), catalog)
  {
    if HasId(s, ing.id) {
      var x :| x in s && x.id == ing.id;
      assert x == ing by {
        var i :| 0 <= i < |catalog| && catalog[i] == x;
        var j :| 0 <= j < |catalog| && catalog[j] == ing;
        assert i == j;
      }
      WithoutIdSum(s, x);
    } else {
      IngredientSumAppend(s, [ing]);
      assert IngredientSum([ing]) == ing.price;
      var r := s + [ing];
      forall i, j | 0 <= i < j < |r| ensures r[i].id != r[j].id {
        if j == |s| {
          assert r[i] in s;
        }
      }
    }
  }

  /** Toggling an unselected ingredient twice gives back the same selection. */
  lemma ToggleTwiceRestores(s: seq<Ingredient>, ing: Ingredient)
    requires !HasId(s, ing.id)
    ensures Toggled(Toggled(s, ing), ing) == s
  {
    var t := s + [ing];
    assert HasId(t, ing.id) by {
      assert t[|s|] == ing;
    }
    WithoutIdAppend(s, [ing], ing.id);
    WithoutIdOfAbsent(s, ing.id);
    assert [ing][1..] == [];
  }

  /** Toggling a selected catalog ingredient twice moves it to the end of the
      selection: the same ingredients, so the same sum. */
  lemma ToggleTwiceReorders(s: seq<Ingredient>, ing: Ingredient, catalog: seq<Ingredient>)
    requires UniqueIds(s) && FromCatalog(s, catalog) && ing in catalog && HasId(s, ing.id)
    ensures Toggled(Toggled(s, ing), ing) == WithoutId(s, ing.id) + [ing]
    ensures multiset(Toggled(Toggled(s, ing), ing)) == multiset(s)
    ensures IngredientSum(Toggled(Toggled(s, ing), ing)) == IngredientSum(s)
  {
    var x :| x in s && x.id == ing.id;
    assert x == ing by {
      var i :| 0 <= i < |catalog| && catalog[i] == x;
      var j :| 0 <= j < |catalog| && catalog[j] == ing;
      assert i == j;
    }
    var t := WithoutId(s, ing.id);
    assert Toggled(s, ing) == t;
    assert !HasId(t, ing.id);
    assert Toggled(t, ing) == t + [ing];
    WithoutIdMultiset(s, ing);
    WithoutIdSum(s, ing);
    IngredientSumAppend(t, [ing]);
    assert IngredientSum([ing]) == ing.price;
  }

  lemma {:induction false} WithoutIdAppend(a: seq<Ingredient>, b: seq<Ingredient>, id: int)
    ensures WithoutId(a + b, id) == WithoutId(a, id) + WithoutId(b, id)
  {
    if a == [] {
      assert a + b == b;
    } else {
      assert (a + b)[1..] == a[1..] + b;
      WithoutIdAppend(a[1..], b, id);
    }
  }

  /** With distinct ids, filtering out a present element's id removes exactly that element. */
  lemma {:induction false} WithoutIdMultiset(s: seq<Ingredient>, x: Ingredient)
    requires UniqueIds(s) && x in s
    ensures multiset(WithoutId(s, x.id)) + multiset{x} == multiset(s)
  {
    assert s == [s[0]] + s[1..];
    UniqueTail(s);
    if s[0] == x {
      WithoutIdOfAbsent(s[1..], x.id);
      assert WithoutId(s, x.id) == s[1..];
    } else {
      assert x in s[1..];
      assert s[0].id != x.id;
      WithoutIdMultiset(s[1..], x);
      assert WithoutId(s, x.id) == [s[0]] + WithoutId(s[1..], x.id);
    }
  }

  /** The guard of `buildPizza`: something to build in the current mode. */
  predicate CanBuild(mode: BuildMode, base: Option<CatalogPizza>, selected: seq<Ingredient>) {
    !(mode == Scratch && |selected| == 0) && !(mode == Base && base.None?)
  }

  /** The `disabled` condition of the "Add to Cart" button. */
  predicate AddDisabled(mode: BuildMode, base: Option<CatalogPizza>, selected: seq<Ingredient>) {
    (mode == Scratch && |selected| == 0) || (mode == Base && base.None?)
  }

  /** The button is disabled exactly when `buildPizza` would refuse. */
  lemma AddDisabledIffCannotBuild(mode: BuildMode, base: Option<CatalogPizza>, selected: seq<Ingredient>)
    ensures AddDisabled(mode, base, selected) <==> !CanBuild(mode, base, selected)
  {
  }

  /** The `cartItem` that `buildPizza` posts. */
  function CustomLine(mode: BuildMode, base: Option<CatalogPizza>, selected: seq<Ingredient>, totalCost: int)
    : (c: CartBody)
    requires CanBuild(mode, base, selected)
    ensures c.itemType == Some(CustomKind) && c.quantity == Some(1) && c.price == Some(totalCost)
    ensures c.customIngredients == Some(Names(selected))
    ensures c.userId.None? && c.itemId.None?
    ensures mode == Base ==>
      && c.name == Some("Custom " + base.value.name)
      && c.basePizza == Some(base.value.name) && c.basePizzaPrice == Some(base.value.price)
      && c.image == base.value.image
    ensures mode == Scratch ==>
      && c.name == Some("Custom Pizza from Scratch")
      && c.basePizza.None? && c.basePizzaPrice == Some(0)
      && c.image == Some(ScratchImage)
  {
    CartBody(
      None,
      Some(CustomKind),
      None,
      Some(if mode == Base then "Custom " + base.value.name else "Custom Pizza from Scratch"),
      if mode == Base then Some(base.value.name) else None,
      Some(if mode == Base then base.value.price else 0),
      Some(totalCost),
      Some(1),
      Some(Names(selected)),
      if mode == Base then base.value.image else Some(ScratchImage))
  }

  /** The page's state. `pizzas` and `ingredients` are the catalog lists it
      fetched when it opened. */
  class Builder {
    const pizzas: seq<CatalogPizza>
    const ingredients: seq<Ingredient>
    var mode: BuildMode
    var selectedBase: Option<CatalogPizza>
    var selectedIngredients: seq<Ingredient>
    var totalCost: int

    /** The running total is the base's price plus the selected ingredients'
        prices; no ingredient is selected twice; no base in scratch mode. */
    ghost predicate Valid()
      reads this
    {
      && totalCost == BasePrice(selectedBase) + IngredientSum(selectedIngredients)
      && UniqueIds(selectedIngredients)
      && FromCatalog(selectedIngredients, ingredients)
      && (mode == Scratch ==> selectedBase.None?)
    }

    constructor (pizzas: seq<CatalogPizza>, ingredients: seq<Ingredient>)
      requires UniqueIds(ingredients)
      ensures Valid()
      ensures this.pizzas == pizzas && this.ingredients == ingredients
      ensures mode == Scratch && selectedBase.None? && selectedIngredients == [] && totalCost == 0
    {
      this.pizzas := pizzas;
      this.ingredients := ingredients;
      mode := Scratch;
      selectedBase := None;
      selectedIngredients := [];
      totalCost := 0;
    }

    /** `handleBasePizzaSelect`, reachable from the base-pizza grid, which
        only base mode shows. */
    method SelectBase(pizza: CatalogPizza)
      requires Valid() && mode == Base
      modifies this
      ensures Valid()
      ensures selectedBase == Some(pizza) && totalCost == pizza.price && selectedIngredients == []
      ensures mode == old(mode)
    {
      selectedBase := Some(pizza);
      totalCost := pizza.price;
      selectedIngredients := [];
    }

    /** `handleIngredientToggle`, called with an entry of the ingredient list. */
    method ToggleIngredient(ing: Ingredient)
      requires Valid() && ing in ingredients
      modifies this
      ensures Valid()
      ensures selectedIngredients == Toggled(old(selectedIngredients), ing)
      ensures totalCost == old(totalCost) + (if HasId(old(selectedIngredients), ing.id) then -ing.price else ing.price)
      ensures selectedBase == old(selectedBase) && mode == old(mode)
    {
      ToggledSum(selectedIngredients, ing, ingredients);
      if HasId(selectedIngredients, ing.id) {
        selectedIngredients := WithoutId(selectedIngredients, ing.id);
        totalCost := totalCost - ing.price;
      } else {
        selectedIngredients := selectedIngredients + [ing];
        totalCost := totalCost + ing.price;
      }
    }

    /** `resetBuild`. */
    method Reset()
      requires Valid()
      modifies this
      ensures Valid()
      ensures selectedBase.None? && selectedIngredients == [] && totalCost == 0
      ensures mode == old(mode)
    {
      selectedBase := None;
      selectedIngredients := [];
      totalCost := 0;
    }

    /** The two mode buttons: switch mode, then `resetBuild`. */
    method ChooseMode(m: BuildMode)
      requires Valid()
      modifies this
      ensures Valid()
      ensures mode == m && selectedBase.None? && selectedIngredients == [] && totalCost == 0
    {
      mode := m;
      selectedBase := None;
      selectedIngredients := [];
      totalCost := 0;
    }

    /** `buildPizza`. `posted` says whether the cart endpoint accepted the
        line; only then is the build reset. */
    method Build(posted: bool) returns (item: Option<CartBody>)
      requires Valid()
      modifies this
      ensures Valid()
      ensures item.Some? <==> CanBuild(mode, old(selectedBase), old(selectedIngredients))
      ensures item.Some? ==> item.value == CustomLine(mode, old(selectedBase), old(selectedIngredients), old(totalCost))
      ensures item.Some? ==>
        item.value.price == Some(item.value.basePizzaPrice.value + IngredientSum(old(selectedIngredients)))
      ensures item.Some? && posted ==> selectedBase.None? && selectedIngredients == [] && totalCost == 0
      ensures item.None? || !posted ==>
        selectedBase == old(selectedBase) && selectedIngredients == old(selectedIngredients) && totalCost == old(totalCost)
      ensures mode == old(mode)
    {
      if !CanBuild(mode, selectedBase, selectedIngredients) {
        return None;
      }
      item := Some(CustomLine(mode, selectedBase, selectedIngredients, totalCost));
      if posted {
        Reset();
      }
    }
  }
}
