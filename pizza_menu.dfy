/** The "Order Pizza" page (pizzariaapp/src/components/OrderPizza.js): the
    cart line it posts when a catalog pizza's "Add to Cart" is pressed. */
module PizzaMenu {
  import opened Schema
  import Ledger

  /** The line's `itemId`: the seeded id if non-empty, else the database id
      if non-empty, else the empty string. */
  function ItemIdOf(p: CatalogPizza): (itemId: string)
    ensures Truthy(p.id) ==> itemId == p.id.value
    ensures !Truthy(p.id) ==> itemId == p.dbId
    ensures itemId == "" <==> !Truthy(p.id) && p.dbId == ""
  {
    if Truthy(p.id) then p.id.value else if p.dbId != "" then p.dbId else ""
  }

  /** The `cartItem` of `addToCart(pizza)`. */
  function MenuLine(p: CatalogPizza): (b: CartBody)
    ensures b.itemType == Some(PizzaKind)
    ensures b.itemId == Some(ItemIdOf(p))
    ensures b.name == Some(p.name) && b.price == Some(p.price) && b.quantity == Some(1)
    ensures b.image == Some(if p.image.Some? then p.image.value else "")
    ensures b.basePizza.None? && b.customIngredients == Some([])
    ensures b.userId.None? && b.basePizzaPrice.None?
  {
    CartBody(None, Some(PizzaKind), Some(ItemIdOf(p)), Some(p.name), None, None,
             Some(p.price), Some(1), Some([]), Some(p.image.GetOr("")))
  }

  /** Once a line of kind 'pizza' is part of an order, its name is in that
      user's order history as the recommendation route reads it. */
  lemma {:induction false} PizzaLineInHistory(lines: seq<CartLine>, k: nat, earlier: seq<Order>, o: Order)
    requires k < |lines| && lines[k].itemType == Some(PizzaKind)
    requires o.items == Ledger.Snapshot(lines)
    ensures lines[k].name in Ledger.OrderedPizzaNames(earlier + [o])
  {
    var items := o.items;
    assert items[k] in items;
    assert lines[k].name in Ledger.PizzaNames(items);
    assert o in earlier + [o];
  }

  /** A pizza added from the menu and then ordered is no longer among the
      not-yet-ordered pizzas that recommendations are drawn from first. */
  lemma OrderedMenuPizzaIsExcluded(p: CatalogPizza, caller: Id, lineId: Id, lines: seq<CartLine>, k: nat,
                                   earlier: seq<Order>, o: Order, catalog: seq<CatalogPizza>)
    requires k < |lines| && lines[k] == Ledger.NewLine(lineId, caller, MenuLine(p))
    requires o.items == Ledger.Snapshot(lines)
    ensures p !in Ledger.Unordered(catalog, Ledger.OrderedPizzaNames(earlier + [o]))
  {
    PizzaLineInHistory(lines, k, earlier, o);
  }
}
