/** The computations of the server's cart, order and recommendation routes
    (pizzariaserver/server.js), written as functions over the collections:
    the per-user queries, the order total, the order snapshot and the
    recommendation pipeline. The routes that change the collections are
    methods of `Server.Store`. */
module Ledger {
  import opened Schema

  // ---------------------------------------------------------------- cart lines

  /** The line the add-to-cart route stores for a posted body: the body's
      fields, the schema's defaults for absent ones, and the caller as owner. */
  function NewLine(id: Id, caller: Id, body: CartBody): (l: CartLine)
    ensures l.id == id && l.userId == caller
    ensures l.quantity == (if body.quantity.Some? then body.quantity.value else 1)
    ensures l.price == (if body.price.Some? then body.price.value else 0)
    ensures l.basePizzaPrice == (if body.basePizzaPrice.Some? then body.basePizzaPrice.value else 0)
    ensures l.basePizza == body.basePizza
    ensures l.customIngredients == (if body.customIngredients.Some? then body.customIngredients.value else [])
    ensures l.itemType == body.itemType && l.itemId == body.itemId && l.name == body.name && l.image == body.image
  {
    CartLine(id, caller, body.itemType, body.itemId, body.name, body.basePizza,
             body.basePizzaPrice.GetOr(0), body.price.GetOr(0), body.quantity.GetOr(1),
             body.customIngredients.GetOr([]), body.image)
  }

  /** A `userId` inside the body has no effect: the owner is always the caller. */
  lemma NewLineIgnoresClaimedOwner(id: Id, caller: Id, body: CartBody, claimed: Id)
    ensures NewLine(id, caller, body.(userId := Some(claimed))) == NewLine(id, caller, body)
    ensures NewLine(id, caller, body).userId == caller
  {
  }

  /** The cart query by owner: the lines of one user, in stored order. */
  function Owned(lines: seq<CartLine>, u: Id): (r: seq<CartLine>)
    ensures forall l :: l in r <==> l in lines && l.userId == u
    ensures |r| <= |lines|
  {
    if lines == [] then []
    else if lines[0].userId == u then [lines[0]] + Owned(lines[1..], u)
    else Owned(lines[1..], u)
  }

  /** What deleting all of one user's lines leaves behind: every other user's lines. */
  function Others(lines: seq<CartLine>, u: Id): (r: seq<CartLine>)
    ensures forall l :: l in r <==> l in lines && l.userId != u
    ensures |r| <= |lines|
  {
    if lines == [] then []
    else if lines[0].userId != u then [lines[0]] + Others(lines[1..], u)
    else Others(lines[1..], u)
  }

  /** The lookup by id and owner: the position of the caller's line with that id. */
  function FindLine(lines: seq<CartLine>, u: Id, id: Id): (r: Option<nat>)
    ensures r.Some? ==> r.value < |lines| && lines[r.value].id == id && lines[r.value].userId == u
    ensures r.None? ==> forall k :: 0 <= k < |lines| ==> lines[k].id != id || lines[k].userId != u
  {
    if lines == [] then None
    else if lines[0].id == id && lines[0].userId == u then Some(0)
    else match FindLine(lines[1..], u, id)
      case None => None
      case Some(k) => Some(k + 1)
  }

  /** The sequence without its element at position `i`. */
  function RemoveAt<T>(s: seq<T>, i: nat): seq<T>
    requires i < |s|
  {
    s[..i] + s[i + 1..]
  }

  /** No two lines share an id (database ids are unique). */
  ghost predicate UniqueLineIds(lines: seq<CartLine>) {
    forall i, j :: 0 <= i < j < |lines| ==> lines[i].id != lines[j].id
  }

  /** The elements after removing position `i`: position `m` holds the old
      element at `m`, or at `m + 1` from `i` on. */
  lemma RemoveAtIndex<T>(s: seq<T>, i: nat, m: nat)
    requires i < |s| && m < |s| - 1
    ensures RemoveAt(s, i)[m] == if m < i then s[m] else s[m + 1]
  {
  }

  /** With distinct line ids, removing the line at `i` removes exactly the
      line with its id. */
  lemma RemoveAtLines(lines: seq<CartLine>, i: nat)
    requires i < |lines| && UniqueLineIds(lines)
    ensures forall l :: l in RemoveAt(lines, i) <==> l in lines && l.id != lines[i].id
  {
    var r := RemoveAt(lines, i);
    forall l | l in r ensures l in lines && l.id != lines[i].id {
      var m :| 0 <= m < |r| && r[m] == l;
      RemoveAtIndex(lines, i, m);
      if m < i { assert lines[m] == l; } else { assert lines[m + 1] == l; }
    }
    forall l | l in lines && l.id != lines[i].id ensures l in r {
      var j :| 0 <= j < |lines| && lines[j] == l;
      if j < i {
        RemoveAtIndex(lines, i, j);
      } else {
        RemoveAtIndex(lines, i, j - 1);
      }
    }
  }

  /** Removing a line keeps the remaining line ids distinct. */
  lemma RemoveAtKeepsUniqueIds(lines: seq<CartLine>, i: nat)
    requires i < |lines| && UniqueLineIds(lines)
    ensures UniqueLineIds(RemoveAt(lines, i))
  {
    var r := RemoveAt(lines, i);
    forall a, b | 0 <= a < b < |r| ensures r[a].id != r[b].id {
      RemoveAtIndex(lines, i, a);
      RemoveAtIndex(lines, i, b);
    }
  }

  lemma {:induction false} OwnedAppend(a: seq<CartLine>, b: seq<CartLine>, u: Id)
    ensures Owned(a + b, u) == Owned(a, u) + Owned(b, u)
  {
    if a == [] {
      assert a + b == b;
    } else {
      assert (a + b)[1..] == a[1..] + b;
      OwnedAppend(a[1..], b, u);
    }
  }

  /** Deleting the caller's lines empties the caller's cart and leaves every
      other user's cart exactly as it was. */
  lemma {:induction false} OwnedAfterClear(lines: seq<CartLine>, u: Id, v: Id)
    ensures Owned(Others(lines, u), v) == if v == u then [] else Owned(lines, v)
  {
    if lines != [] {
      OwnedAfterClear(lines[1..], u, v);
    }
  }

  /** Removing one line changes no other user's cart. */
  lemma OwnedAfterRemove(lines: seq<CartLine>, i: nat, v: Id)
    requires i < |lines| && lines[i].userId != v
    ensures Owned(RemoveAt(lines, i), v) == Owned(lines, v)
  {
    assert lines == lines[..i] + ([lines[i]] + lines[i + 1..]);
    OwnedAppend(lines[..i], [lines[i]] + lines[i + 1..], v);
    OwnedAppend([lines[i]], lines[i + 1..], v);
    OwnedAppend(lines[..i], lines[i + 1..], v);
  }

  /** Rewriting one line without changing its owner changes no other user's cart. */
  lemma OwnedAfterUpdate(lines: seq<CartLine>, i: nat, x: CartLine, v: Id)
    requires i < |lines| && x.userId == lines[i].userId && x.userId != v
    ensures Owned(lines[i := x], v) == Owned(lines, v)
  {
    var s := lines[i := x];
    assert lines == lines[..i] + ([lines[i]] + lines[i + 1..]);
    assert s == lines[..i] + ([x] + lines[i + 1..]);
    OwnedAppend(lines[..i], [lines[i]] + lines[i + 1..], v);
    OwnedAppend([lines[i]], lines[i + 1..], v);
    OwnedAppend(lines[..i], [x] + lines[i + 1..], v);
    OwnedAppend([x], lines[i + 1..], v);
  }

  /** Clearing a user's cart keeps the remaining line ids unique. */
  lemma {:induction false} OthersKeepsUniqueIds(lines: seq<CartLine>, u: Id)
    requires UniqueLineIds(lines)
    ensures UniqueLineIds(Others(lines, u))
  {
    if lines != [] {
      OthersKeepsUniqueIds(lines[1..], u);
      var rest := Others(lines[1..], u);
      forall l | l in rest ensures l.id != lines[0].id {
        var k :| 0 <= k < |lines[1..]| && lines[1..][k] == l;
        assert lines[k + 1] == l;
      }
    }
  }

  // ---------------------------------------------------------------- orders

  /** One line's contribution to a total: price × quantity. */
  function Subtotal(l: CartLine): int {
    l.price * l.quantity
  }

  /** The order total: the sum of price × quantity, accumulated from the first line on. */
  function LineSum(lines: seq<CartLine>): int {
    if lines == [] then 0
    else LineSum(lines[..|lines| - 1]) + Subtotal(lines[|lines| - 1])
  }

  /** The same sum over order items. */
  function ItemsTotal(items: seq<OrderItem>): int {
    if items == [] then 0
    else ItemsTotal(items[..|items| - 1]) + items[|items| - 1].price * items[|items| - 1].quantity
  }

  lemma {:induction false} LineSumAppend(a: seq<CartLine>, b: seq<CartLine>)
    ensures LineSum(a + b) == LineSum(a) + LineSum(b)
  {
    if b != [] {
      var c := a + b;
      assert c[..|c| - 1] == a + b[..|b| - 1];
      LineSumAppend(a, b[..|b| - 1]);
    } else {
      assert a + b == a;
    }
  }

  /** The value of all carts splits into one user's order total and what the
      other users' carts hold. */
  lemma {:induction false} LineSumSplitsByOwner(lines: seq<CartLine>, u: Id)
    ensures LineSum(lines) == LineSum(Owned(lines, u)) + LineSum(Others(lines, u))
  {
    if lines != [] {
      var x, rest := lines[0], lines[1..];
      assert lines == [x] + rest;
      LineSumSplitsByOwner(rest, u);
      LineSumAppend([x], rest);
      if x.userId == u {
        LineSumAppend([x], Owned(rest, u));
      } else {
        LineSumAppend([x], Others(rest, u));
      }
    }
  }

  /** The copy of one line that goes into an order. */
  function ItemOf(l: CartLine): OrderItem {
    OrderItem(l.itemType, l.name, l.basePizza, l.price, l.quantity, l.customIngredients, l.image)
  }

  /** The order's items: one copy per cart line, in cart order, of the seven
      fields an order item has. */
  function Snapshot(lines: seq<CartLine>): (items: seq<OrderItem>)
    ensures |items| == |lines|
    ensures forall k :: 0 <= k < |lines| ==>
      && items[k].itemType == lines[k].itemType
      && items[k].name == lines[k].name
      && items[k].basePizza == lines[k].basePizza
      && items[k].price == lines[k].price
      && items[k].quantity == lines[k].quantity
      && items[k].customIngredients == lines[k].customIngredients
      && items[k].image == lines[k].image
  {
    if lines == [] then [] else [ItemOf(lines[0])] + Snapshot(lines[1..])
  }

  /** An order's `totalAmount` can be recomputed from its own items: the
      snapshot carries exactly the prices and quantities that were summed. */
  lemma {:induction false} SnapshotTotal(lines: seq<CartLine>)
    ensures ItemsTotal(Snapshot(lines)) == LineSum(lines)
  {
    if lines != [] {
      var n := |lines|;
      var items := Snapshot(lines);
      var init := lines[..n - 1];
      assert items[..n - 1] == Snapshot(init);
      SnapshotTotal(init);
    }
  }

  /** The order query by owner, in stored order. */
  function OwnedOrders(orders: seq<Order>, u: Id): (r: seq<Order>)
    ensures forall o :: o in r <==> o in orders && o.userId == u
    ensures |r| <= |orders|
  {
    if orders == [] then []
    else if orders[0].userId == u then [orders[0]] + OwnedOrders(orders[1..], u)
    else OwnedOrders(orders[1..], u)
  }

  /** The order lookup by id and owner. */
  function FindOrder(orders: seq<Order>, u: Id, id: Id): (r: Option<Order>)
    ensures r.Some? ==> r.value in orders && r.value.id == id && r.value.userId == u
    ensures r.None? ==> forall o :: o in orders ==> o.id != id || o.userId != u
  {
    if orders == [] then None
    else if orders[0].id == id && orders[0].userId == u then Some(orders[0])
    else FindOrder(orders[1..], u, id)
  }

  /** Newest first: orders are appended in creation order, so sorting by
      creation time descending is the reverse. */
  function Reverse<T(!new)>(s: seq<T>): (r: seq<T>)
    ensures |r| == |s|
    ensures forall k :: 0 <= k < |s| ==> r[k] == s[|s| - 1 - k]
    ensures forall x :: x in r <==> x in s
  {
    if s == [] then [] else Reverse(s[1..]) + [s[0]]
  }

  ghost predicate UniqueOrderIds(orders: seq<Order>) {
    forall i, j :: 0 <= i < j < |orders| ==> orders[i].id != orders[j].id
  }

  /** Ids taken from a counter grow with creation order. */
  ghost predicate IncreasingOrderIds(orders: seq<Order>) {
    forall i, j :: 0 <= i < j < |orders| ==> orders[i].id < orders[j].id
  }

  lemma {:induction false} OwnedOrdersAppend(a: seq<Order>, b: seq<Order>, u: Id)
    ensures OwnedOrders(a + b, u) == OwnedOrders(a, u) + OwnedOrders(b, u)
  {
    if a == [] {
      assert a + b == b;
    } else {
      assert (a + b)[1..] == a[1..] + b;
      OwnedOrdersAppend(a[1..], b, u);
    }
  }

  lemma IncreasingTail(orders: seq<Order>)
    requires orders != [] && IncreasingOrderIds(orders)
    ensures IncreasingOrderIds(orders[1..])
    ensures forall p :: p in orders[1..] ==> orders[0].id < p.id
  {
    var tail := orders[1..];
    forall i, j | 0 <= i < j < |tail| ensures tail[i].id < tail[j].id {
      assert tail[i] == orders[i + 1] && tail[j] == orders[j + 1];
    }
    forall p | p in tail ensures orders[0].id < p.id {
      var k :| 0 <= k < |tail| && tail[k] == p;
      assert orders[k + 1] == p;
    }
  }

  lemma IncreasingCons(first: Order, rest: seq<Order>)
    requires IncreasingOrderIds(rest) && forall p :: p in rest ==> first.id < p.id
    ensures IncreasingOrderIds([first] + rest)
  {
    var r := [first] + rest;
    forall i, j | 0 <= i < j < |r| ensures r[i].id < r[j].id {
      assert r[j] == rest[j - 1];
      if i > 0 {
        assert r[i] == rest[i - 1];
      }
    }
  }

  /** The query by owner keeps stored order, so it keeps ids increasing. */
  lemma {:induction false} OwnedOrdersKeepsIncreasingIds(orders: seq<Order>, u: Id)
    requires IncreasingOrderIds(orders)
    ensures IncreasingOrderIds(OwnedOrders(orders, u))
  {
    if orders != [] {
      IncreasingTail(orders);
      OwnedOrdersKeepsIncreasingIds(orders[1..], u);
      if orders[0].userId == u {
        IncreasingCons(orders[0], OwnedOrders(orders[1..], u));
      }
    }
  }

  /** Newest first: reversing ids that grow with creation order makes them
      fall. */
  lemma ReverseDecreasesIds(s: seq<Order>)
    requires IncreasingOrderIds(s)
    ensures forall i, j :: 0 <= i < j < |Reverse(s)| ==> Reverse(s)[i].id > Reverse(s)[j].id
  {
    var r := Reverse(s);
    forall i, j | 0 <= i < j < |r| ensures r[i].id > r[j].id {
      assert r[i] == s[|s| - 1 - i] && r[j] == s[|s| - 1 - j];
    }
  }

  /** Appending an order whose id is above every stored id keeps ids
      increasing. */
  lemma OrderKeepsIncreasingIds(orders: seq<Order>, o: Order)
    requires IncreasingOrderIds(orders) && forall p :: p in orders ==> p.id < o.id
    ensures IncreasingOrderIds(orders + [o])
  {
    var s := orders + [o];
    forall i, j | 0 <= i < j < |s| ensures s[i].id < s[j].id {
      if j == |orders| {
        assert s[i] in orders;
      }
    }
  }

  /** Appending an order whose id is above every stored id keeps order ids
      distinct and below the next free id. */
  lemma OrderKeepsUniqueIds(orders: seq<Order>, o: Order, next: Id)
    requires UniqueOrderIds(orders) && (forall p :: p in orders ==> p.id < next) && o.id == next
    ensures UniqueOrderIds(orders + [o])
    ensures forall p :: p in orders + [o] ==> p.id < next + 1
  {
    var s := orders + [o];
    forall i, j | 0 <= i < j < |s| ensures s[i].id != s[j].id {
      if j == |orders| {
        assert s[i] in orders;
      }
    }
  }

  // ---------------------------------------------------------------- recommendations

  /** Names of one order's items whose `itemType` is exactly 'pizza'. */
  function PizzaNames(items: seq<OrderItem>): (names: seq<Option<string>>)
    ensures forall n :: n in names <==> exists it :: it in items && it.itemType == Some(PizzaKind) && it.name == n
  {
    if items == [] then []
    else (if items[0].itemType == Some(PizzaKind) then [items[0].name] else []) + PizzaNames(items[1..])
  }

  /** The names of the catalog-pizza items of all the given orders, order by order. */
  function OrderedPizzaNames(orders: seq<Order>): (names: seq<Option<string>>)
    ensures forall n :: n in names <==> exists o :: o in orders && n in PizzaNames(o.items)
  {
    if orders == [] then [] else PizzaNames(orders[0].items) + OrderedPizzaNames(orders[1..])
  }

  /** The catalog pizzas whose name is not among `names`, in catalog order. */
  function Unordered(catalog: seq<CatalogPizza>, names: seq<Option<string>>): (r: seq<CatalogPizza>)
    ensures forall p :: p in r <==> p in catalog && Some(p.name) !in names
    ensures |r| <= |catalog|
  {
    if catalog == [] then []
    else if Some(catalog[0].name) !in names then [catalog[0]] + Unordered(catalog[1..], names)
    else Unordered(catalog[1..], names)
  }

  /** Filtering keeps catalog order: filtering a concatenation is the
      concatenation of the filtered parts. */
  lemma {:induction false} UnorderedAppend(a: seq<CatalogPizza>, b: seq<CatalogPizza>, names: seq<Option<string>>)
    ensures Unordered(a + b, names) == Unordered(a, names) + Unordered(b, names)
  {
    if a == [] {
      assert a + b == b;
    } else {
      assert (a + b)[1..] == a[1..] + b;
      UnorderedAppend(a[1..], b, names);
    }
  }

  /** The first `k` elements, or all of them when there are fewer. */
  function Take<T>(s: seq<T>, k: nat): (r: seq<T>)
    ensures |r| <= k && |r| <= |s|
    ensures |r| == k || r == s
    ensures r == s[..|r|]
  {
    if k <= |s| then s[..k] else s
  }

  /** Some pizza of `s` has this catalog id (absent ids compare equal). */
  predicate HasPizzaId(s: seq<CatalogPizza>, id: Option<string>) {
    exists q :: q in s && q.id == id
  }

  /** The backfill candidates whose id is not already among `recs`. */
  function NewIds(extra: seq<CatalogPizza>, recs: seq<CatalogPizza>): (r: seq<CatalogPizza>)
    ensures forall p :: p in r <==> p in extra && !HasPizzaId(recs, p.id)
    ensures |r| <= |extra|
  {
    if extra == [] then []
    else if !HasPizzaId(recs, extra[0].id) then [extra[0]] + NewIds(extra[1..], recs)
    else NewIds(extra[1..], recs)
  }

  /** The backfill filter keeps catalog order as well. */
  lemma {:induction false} NewIdsAppend(a: seq<CatalogPizza>, b: seq<CatalogPizza>, recs: seq<CatalogPizza>)
    ensures NewIds(a + b, recs) == NewIds(a, recs) + NewIds(b, recs)
  {
    if a == [] {
      assert a + b == b;
    } else {
      assert (a + b)[1..] == a[1..] + b;
      NewIdsAppend(a[1..], b, recs);
    }
  }

  /** The first three of the unordered pizzas `u`, topped up from the head of
      the catalog when fewer than three remain. */
  function TopUp(u: seq<CatalogPizza>, catalog: seq<CatalogPizza>): (r: seq<CatalogPizza>)
    ensures |r| <= 3
    ensures forall p :: p in r ==> p in u || p in catalog
    ensures |u| >= 3 ==> r == u[..3]
    ensures |u| < 3 ==> |u| <= |r| && r[..|u|] == u
  {
    if |u| < 3 then u + NewIds(Take(catalog, 3 - |u|), u)
    else u[..3]
  }

  /** When fewer than three unordered pizzas exist, they are followed by the
      first 3 - |u| catalog pizzas whose id is not already recommended, in
      catalog order (the order is that of `NewIds`, see `NewIdsAppend`). */
  lemma TopUpBackfill(u: seq<CatalogPizza>, catalog: seq<CatalogPizza>)
    requires |u| < 3
    ensures TopUp(u, catalog) == u + NewIds(Take(catalog, 3 - |u|), u)
  {
  }

  /** The same backfill as a set: a catalog pizza follows the unordered ones
      exactly when it is among the first 3 - |u| and its id is new. */
  lemma TopUpBackfillMembers(u: seq<CatalogPizza>, catalog: seq<CatalogPizza>)
    requires |u| < 3
    ensures forall p :: p in TopUp(u, catalog)[|u|..] <==> p in Take(catalog, 3 - |u|) && !HasPizzaId(u, p.id)
  {
    var backfill := NewIds(Take(catalog, 3 - |u|), u);
    TopUpBackfill(u, catalog);
    assert (u + backfill)[|u|..] == backfill;
  }

  /** The recommendation route for a user whose orders are `userOrders`. */
  function Recommend(userOrders: seq<Order>, catalog: seq<CatalogPizza>): (r: seq<CatalogPizza>)
    ensures |r| <= 3
    ensures forall p :: p in r ==> p in catalog
    ensures userOrders == [] ==> r == Take(catalog, 3)
  {
    if userOrders == [] then Take(catalog, 3)
    else TopUp(Unordered(catalog, OrderedPizzaNames(userOrders)), catalog)
  }

  ghost predicate UniquePizzaIds(s: seq<CatalogPizza>) {
    forall i, j :: 0 <= i < j < |s| ==> s[i].id != s[j].id
  }

  /** Recommendations for a user with orders start with the not-yet-ordered
      catalog pizzas, in catalog order; when at least three exist, the result
      is exactly the first three of them. */
  lemma RecommendPrefersUnordered(userOrders: seq<Order>, catalog: seq<CatalogPizza>)
    requires userOrders != []
    ensures var u := Unordered(catalog, OrderedPizzaNames(userOrders));
      && (|u| < 3 ==> Recommend(userOrders, catalog)[..|u|] == u)
      && (|u| >= 3 ==> Recommend(userOrders, catalog) == u[..3])
    ensures forall k :: 0 <= k < |Recommend(userOrders, catalog)| && k < |Unordered(catalog, OrderedPizzaNames(userOrders))| ==>
      Some(Recommend(userOrders, catalog)[k].name) !in OrderedPizzaNames(userOrders)
  {
    var u := Unordered(catalog, OrderedPizzaNames(userOrders));
    var r := Recommend(userOrders, catalog);
    forall k | 0 <= k < |r| && k < |u|
      ensures Some(r[k].name) !in OrderedPizzaNames(userOrders)
    {
      assert r[k] == u[k];
      assert u[k] in u;
    }
  }

  lemma {:induction false} UnorderedKeepsUniqueIds(catalog: seq<CatalogPizza>, names: seq<Option<string>>)
    requires UniquePizzaIds(catalog)
    ensures UniquePizzaIds(Unordered(catalog, names))
  {
    if catalog != [] {
      UnorderedKeepsUniqueIds(catalog[1..], names);
      forall p | p in Unordered(catalog[1..], names) ensures p.id != catalog[0].id {
        var k :| 0 <= k < |catalog[1..]| && catalog[1..][k] == p;
        assert catalog[k + 1] == p;
      }
    }
  }

  lemma {:induction false} NewIdsKeepsUniqueIds(extra: seq<CatalogPizza>, recs: seq<CatalogPizza>)
    requires UniquePizzaIds(extra)
    ensures UniquePizzaIds(NewIds(extra, recs))
  {
    if extra != [] {
      NewIdsKeepsUniqueIds(extra[1..], recs);
      forall p | p in NewIds(extra[1..], recs) ensures p.id != extra[0].id {
        var k :| 0 <= k < |extra[1..]| && extra[1..][k] == p;
        assert extra[k + 1] == p;
      }
    }
  }

  /** A prefix of a sequence with distinct ids has distinct ids. */
  lemma PrefixKeepsUniqueIds(s: seq<CatalogPizza>, n: nat)
    requires n <= |s| && UniquePizzaIds(s)
    ensures UniquePizzaIds(s[..n])
  {
    forall i, j | 0 <= i < j < n ensures s[..n][i].id != s[..n][j].id {
      assert s[..n][i] == s[i] && s[..n][j] == s[j];
    }
  }

  /** Appending the backfill to recommendations with distinct ids keeps ids distinct. */
  lemma BackfillKeepsUniqueIds(recs: seq<CatalogPizza>, extra: seq<CatalogPizza>)
    requires UniquePizzaIds(recs) && UniquePizzaIds(extra)
    ensures UniquePizzaIds(recs + NewIds(extra, recs))
  {
    var added := NewIds(extra, recs);
    NewIdsKeepsUniqueIds(extra, recs);
    var r := recs + added;
    forall i, j | 0 <= i < j < |r| ensures r[i].id != r[j].id {
      if j >= |recs| && i < |recs| {
        assert r[j] in added;
        assert r[i] in recs;
      } else if i >= |recs| {
        assert r[i] == added[i - |recs|] && r[j] == added[j - |recs|];
      }
    }
  }

  /** Topping up keeps ids distinct. */
  lemma TopUpKeepsUniqueIds(u: seq<CatalogPizza>, catalog: seq<CatalogPizza>)
    requires UniquePizzaIds(u) && UniquePizzaIds(catalog)
    ensures UniquePizzaIds(TopUp(u, catalog))
  {
    if |u| >= 3 {
      assert TopUp(u, catalog) == u[..3];
      PrefixKeepsUniqueIds(u, 3);
    } else {
      assert Take(u, 3) == u;
      var extra := Take(catalog, 3 - |u|);
      assert TopUp(u, catalog) == u + NewIds(extra, u);
      PrefixKeepsUniqueIds(catalog, |extra|);
      BackfillKeepsUniqueIds(u, extra);
    }
  }

  /** When catalog ids are distinct, no id appears twice among the recommendations. */
  lemma RecommendUniqueIds(userOrders: seq<Order>, catalog: seq<CatalogPizza>)
    requires UniquePizzaIds(catalog)
    ensures UniquePizzaIds(Recommend(userOrders, catalog))
  {
    if userOrders == [] {
      PrefixKeepsUniqueIds(catalog, |Take(catalog, 3)|);
    } else {
      var names := OrderedPizzaNames(userOrders);
      UnorderedKeepsUniqueIds(catalog, names);
      TopUpKeepsUniqueIds(Unordered(catalog, names), catalog);
    }
  }

  /** A catalog pizza with only an id and a name, for the example below. */
  function SamplePizza(id: string, name: string): CatalogPizza {
    CatalogPizza(id, Some(id), None, 100, name, None, "", [], [])
  }

  /** Four pizzas A, B, C, D, in this catalog order. */
  function SampleCatalog(): seq<CatalogPizza> {
    [SamplePizza("1", "A"), SamplePizza("2", "B"), SamplePizza("3", "C"), SamplePizza("4", "D")]
  }

  /** One order holding B, C and D. */
  function SampleOrder(): Order {
    Order(0, 0, [SampleItem("B"), SampleItem("C"), SampleItem("D")], 300, Confirmed)
  }

  /** A catalog-pizza order item with the given name. */
  function SampleItem(name: string): OrderItem {
    OrderItem(Some(PizzaKind), Some(name), None, 100, 1, [], None)
  }

  /** The pizza names of `SampleOrder`. */
  function SampleNames(): seq<Option<string>> {
    [Some("B"), Some("C"), Some("D")]
  }

  lemma SampleOrderedNames()
    ensures OrderedPizzaNames([SampleOrder()]) == SampleNames()
  {
    var items := SampleOrder().items;
    assert PizzaNames(items[2..]) == [Some("D")] by {
      assert items[2..][1..] == [];
    }
    assert PizzaNames(items[1..]) == [Some("C"), Some("D")] by {
      assert items[1..][1..] == items[2..];
    }
    assert PizzaNames(items) == SampleNames();
    assert [SampleOrder()][1..] == [];
  }

  lemma SampleUnordered()
    ensures Unordered(SampleCatalog(), SampleNames()) == SampleCatalog()[..1]
  {
    var catalog := SampleCatalog();
    var names := SampleNames();
    assert Unordered(catalog[3..], names) == [] by {
      assert catalog[3..][1..] == [];
    }
    assert Unordered(catalog[2..], names) == [] by {
      assert catalog[2..][1..] == catalog[3..];
    }
    assert Unordered(catalog[1..], names) == [] by {
      assert catalog[1..][1..] == catalog[2..];
    }
    assert catalog[..1] == [catalog[0]];
  }

  lemma SampleBackfill()
    ensures NewIds(Take(SampleCatalog(), 2), SampleCatalog()[..1]) == SampleCatalog()[1..2]
  {
    var catalog := SampleCatalog();
    var a, b := catalog[0], catalog[1];
    var recs := catalog[..1];
    assert recs == [a];
    assert HasPizzaId(recs, a.id);
    assert !HasPizzaId(recs, b.id);
    var ab := Take(catalog, 2);
    assert ab == [a, b] by {
      assert catalog[..2] == [a, b];
    }
    assert ab[1..] == [b];
    assert NewIds([b], recs) == [b] by {
      assert [b][1..] == [];
    }
    assert NewIds(ab, recs) == [b];
  }

  lemma SampleTopUp()
    ensures TopUp(SampleCatalog()[..1], SampleCatalog()) == SampleCatalog()[..2]
  {
    var catalog := SampleCatalog();
    var u := catalog[..1];
    assert Take(u, 3) == u;
    SampleBackfill();
    assert u + catalog[1..2] == catalog[..2];
  }

  /** The backfill only looks at the first 3 − n catalog pizzas, so it can
      return fewer than three even when the catalog holds more: with four
      pizzas of which the last three were ordered, the result is [A, B]. */
  lemma BackfillCanFallShort()
    ensures |SampleCatalog()| == 4
    ensures Recommend([SampleOrder()], SampleCatalog()) == SampleCatalog()[..2]
  {
    SampleOrderedNames();
    SampleUnordered();
    SampleTopUp();
  }
}
