/** The shopping-cart page (pizzariaapp/src/components/ShoppingCart.js):
    the total it shows, the guards in front of its requests, and the line it
    posts for a recommended pizza. Requests are returned as values; whether
    the server accepted one is passed in. */
module ShoppingCart {
  import opened Schema
  import Ledger
  import PizzaMenu

  /** A missing quantity counts as 1; on a number only 0 is "missing". */
  function QuantityOrOne(q: int): int {
    if q == 0 then 1 else q
  }

  /** The total the page shows: the sum of price × quantity, where a missing
      price counts as 0 (no change on a number) and a missing quantity as 1. */
  function CalculateTotal(items: seq<CartLine>): int {
    if items == [] then 0
    else CalculateTotal(items[..|items| - 1]) + items[|items| - 1].price * QuantityOrOne(items[|items| - 1].quantity)
  }

  /** The amount shown beside one line: price × quantity. */
  function LineTotal(l: CartLine): int {
    l.price * l.quantity
  }

  /** The page's total is the server's order total for the same lines, as
      long as no line has quantity 0. */
  lemma {:induction false} TotalMatchesOrderTotal(items: seq<CartLine>)
    requires forall l :: l in items ==> l.quantity != 0
    ensures CalculateTotal(items) == Ledger.LineSum(items)
  {
    if items != [] {
      var init := items[..|items| - 1];
      assert forall l :: l in init ==> l in items;
      TotalMatchesOrderTotal(init);
      assert items[|items| - 1] in items;
    }
  }

  /** A line the page shows with a total of `LineTotal` adds that to the page's total. */
  lemma {:induction false} TotalOfShownLines(items: seq<CartLine>, l: CartLine)
    requires l.quantity != 0
    ensures CalculateTotal(items + [l]) == CalculateTotal(items) + LineTotal(l)
  {
    assert (items + [l])[..|items|] == items;
  }

  /** The server accepts quantity 0 (only this page refuses it); such a line
      counts once on this page and nothing in the order total. */
  lemma ZeroQuantityCountsOnce(l: CartLine)
    requires l.quantity == 0 && l.price != 0
    ensures CalculateTotal([l]) == l.price
    ensures Ledger.LineSum([l]) == 0
    ensures CalculateTotal([l]) != Ledger.LineSum([l])
  {
    assert [l][..0] == [];
  }

  /** The quantity request `updateQuantity` sends. */
  datatype QuantityRequest = QuantityRequest(id: Id, quantity: int)

  /** The guard of `updateQuantity`: quantities below 1 are never sent. */
  predicate Refused(newQuantity: int) {
    newQuantity < 1
  }

  /** The decrement button is disabled at quantity 1 or less. */
  predicate DecrementDisabled(l: CartLine) {
    l.quantity <= 1
  }

  /** The decrement button is disabled exactly when `updateQuantity` would
      refuse the quantity it sends; the increment button is refused only for
      a line whose quantity is already negative. */
  lemma DecrementDisabledIffRefused(l: CartLine)
    ensures DecrementDisabled(l) <==> Refused(l.quantity - 1)
    ensures Refused(l.quantity + 1) <==> l.quantity < 0
  {
  }

  /** The `payload` of `addRecommendationToCart(pizza)`. Unlike the menu's
      line, a missing image stays missing. */
  function RecommendationLine(p: CatalogPizza): (b: CartBody)
    ensures b.itemType == Some(PizzaKind)
    ensures b.itemId == Some(PizzaMenu.ItemIdOf(p))
    ensures b.name == Some(p.name) && b.price == Some(p.price) && b.quantity == Some(1)
    ensures b.image == p.image
    ensures b.basePizza.None? && b.customIngredients == Some([])
    ensures b.userId.None? && b.basePizzaPrice.None?
  {
    CartBody(None, Some(PizzaKind), Some(PizzaMenu.ItemIdOf(p)), Some(p.name), None, None,
             Some(p.price), Some(1), Some([]), p.image)
  }

  /** The recommended pizza's line is the menu's line for the same pizza,
      except that the menu fills a missing image with "". */
  lemma RecommendationLineIsMenuLine(p: CatalogPizza)
    ensures RecommendationLine(p) == PizzaMenu.MenuLine(p).(image := p.image)
    ensures p.image.Some? ==> RecommendationLine(p) == PizzaMenu.MenuLine(p)
  {
  }

  /** A recommended pizza added here and then ordered is no longer among the
      not-yet-ordered pizzas that recommendations are drawn from first. */
  lemma OrderedRecommendationIsExcluded(p: CatalogPizza, caller: Id, lineId: Id, lines: seq<CartLine>, k: nat,
                                        earlier: seq<Order>, o: Order, catalog: seq<CatalogPizza>)
    requires k < |lines| && lines[k] == Ledger.NewLine(lineId, caller, RecommendationLine(p))
    requires o.items == Ledger.Snapshot(lines)
    ensures p !in Ledger.Unordered(catalog, Ledger.OrderedPizzaNames(earlier + [o]))
  {
    PizzaMenu.PizzaLineInHistory(lines, k, earlier, o);
  }

  /** The page's state: the cart lines it last fetched. */
  class CartPage {
    var cartItems: seq<CartLine>

    constructor ()
      ensures cartItems == []
    {
      cartItems := [];
    }

    /** `fetchCartItems`: replace the shown lines by the server's list. */
    method Load(fetched: seq<CartLine>)
      modifies this
      ensures cartItems == fetched
    {
      cartItems := fetched;
    }

    /** `updateQuantity(id, newQuantity)`: the request it sends, if any. */
    method UpdateQuantity(id: Id, newQuantity: int) returns (request: Option<QuantityRequest>)
      ensures request.None? <==> Refused(newQuantity)
      ensures request.Some? ==> request.value.id == id && request.value.quantity == newQuantity
      ensures request.Some? ==> request.value.quantity >= 1
    {
      if Refused(newQuantity) {
        return None;
      }
      request := Some(QuantityRequest(id, newQuantity));
    }

    /** `proceedToCheckout`. `placed` says whether the order request
        succeeded. Returns whether an order request was made. */
    method ProceedToCheckout(placed: bool) returns (requested: bool)
      modifies this
      ensures requested <==> old(cartItems) != []
      ensures requested && placed ==> cartItems == []
      ensures !(requested && placed) ==> cartItems == old(cartItems)
    {
      if |cartItems| == 0 {
        return false;
      }
      requested := true;
      if placed {
        cartItems := [];
      }
    }
  }
}
