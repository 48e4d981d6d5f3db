# Pizzeria ordering core, modelled in Dafny

This project models the core of a pizzeria ordering application. The server
(`pizzariaserver/server.js`) handles these routes:

- registration checks;
- a per-user cart of lines: add, change quantity, remove, list, count;
- orders placed from the cart;
- a small recommendation list.

The React client contributes three pages:

- the "Build Your Pizza" page (`BuildUrPizza.js`), which chooses a base
  pizza, toggles ingredients, keeps a running total and builds the custom
  line;
- the shopping-cart page (`ShoppingCart.js`), which shows the total and
  guards the quantity and checkout requests;
- the menu page (`OrderPizza.js`), which posts the line for a catalog pizza.

Files and modules:

- `schema.dfy` (`Schema`): the documents (user, catalog pizza, ingredient,
  cart line, order) and the JSON bodies the client posts. Fields a body may
  lack are `Option`s. Prices are whole rupees (`int`).
- `ledger.dfy` (`Ledger`): what the server routes compute, as functions over
  the collections:
  - the per-user cart and order queries;
  - the stored line for a posted body;
  - the order total and the order snapshot;
  - the recommendation pipeline.
- `server.dfy` (`Server`): registration validation, and a `Store` class
  holding the users, cart and orders collections. Each route is a method of
  `Store` that takes the authenticated user's id as `caller`. The class
  invariant says:
  - document ids are fresh, and user, line and order ids are distinct;
  - order ids grow in creation order;
  - emails are stored lower-case and are unique.
- `builder.dfy` (`CustomPizza`): the builder page's state as a `Builder`
  class. Its invariant: the running total is always the base price plus the
  selected ingredients' prices, and no ingredient is selected twice.
- `cart_page.dfy` (`ShoppingCart`): the cart page's total and request
  guards, and the line posted for a recommended pizza.
- `pizza_menu.dfy` (`PizzaMenu`): the line posted from the menu.

The model follows the code in these places:

- The add-to-cart route stores any body. It does not reject a line without
  a name or price; absent fields take the schema defaults.
- The quantity route stores any quantity, 0 and negative numbers included.
  Only the cart page refuses quantities below 1.
- When fewer than three unordered pizzas remain, the recommendation backfill
  looks only at the first 3 − n catalog pizzas. It can therefore return
  fewer than three even when the catalog has more (`Ledger.BackfillCanFallShort`).
- The cart page and the server disagree on a line of quantity 0: the page
  counts it as quantity 1, the server's order total counts it as 0 (`ShoppingCart.ZeroQuantityCountsOnce`).

## Model

| member | source | states |
|---|---|---|
| Server.ValidateRegistration | pizzariaserver/server.js:118-131 | Missing-fields error exactly when name, email or password is absent or empty. Short-password error exactly when all are present and the password is under 6 characters. Taken error exactly when, beyond that, some user already has the lower-cased email. Otherwise Ok with the lower-cased email, which no user has. |
| Server.RegistrationIsCaseInsensitive | pizzariaserver/server.js:127-140 | Once a lower-cased address is stored, registering any spelling of it that differs only in letter case fails, with the taken-email error once the other checks pass. |
| Server.RegistrationAcceptsNewAddress | pizzariaserver/server.js:127-140 | With valid fields and lower-cased stored addresses, an address that equals no stored one up to letter case is accepted, lower-cased. |
| Server.ToLower | pizzariaserver/server.js:127 | Lower-casing keeps the length, yields a lower-case string, leaves a lower-case string unchanged, and maps two addresses to the same string exactly when they differ only in letter case (`Server.CaseVariantsCollide`). |
| Server.CaseVariantsCollide | pizzariaserver/server.js:127 | Two addresses lower-case to the same string exactly when they differ at most in the case of their letters. |
| Server.Store.constructor | pizzariaserver/server.js:80-84 | Empty users, cart and orders collections over a given catalog, with the store invariant holding. |
| Server.Store.Register | pizzariaserver/server.js:112-144 | On a validation error nothing is stored and that error is returned. Otherwise exactly one user is appended: a fresh id, the given name, the lower-cased email and the hash. The invariant (unique lower-case emails, fresh ids) is kept. |
| Server.Store.AddLine | pizzariaserver/server.js:248-257 | Exactly one line is appended. It is `NewLine` of the body with a fresh id and the caller as owner, whatever owner the body claims. Users and orders are unchanged. |
| Ledger.NewLine | pizzariaserver/server.js:50-62 | The stored line takes the body's fields and the caller as owner. Absent fields get the schema defaults: quantity 1, price 0, base price 0, no ingredients. |
| Ledger.NewLineIgnoresClaimedOwner | pizzariaserver/server.js:252-255 | The stored line is the same whatever `userId` the body claims, and its owner is the caller. |
| Server.Store.UpdateQuantity | pizzariaserver/server.js:264-276 | Not found, with nothing changed, exactly when the caller owns no line with that id. Otherwise that one line gets the new quantity (any integer) and every other user's cart is unchanged. |
| Server.Store.RemoveLine | pizzariaserver/server.js:283-291 | Not found, with nothing changed, exactly when the caller owns no line with that id. Otherwise exactly that line is removed and every other user's cart is unchanged. |
| Ledger.RemoveAtLines | pizzariaserver/server.js:285-290 | With distinct line ids, deleting the found line removes exactly the line with that id; every other line stays. |
| Ledger.RemoveAtKeepsUniqueIds | pizzariaserver/server.js:290 | Deleting a line keeps the remaining line ids distinct. |
| Server.Store.ListLines | pizzariaserver/server.js:298-301 | The result holds exactly the caller's lines, in stored order. |
| Server.Store.CountLines | pizzariaserver/server.js:309-312 | The count is the number of the caller's lines. |
| Ledger.Owned | pizzariaserver/server.js:300 | A line is in a user's cart iff it is stored and owned by that user; stored order is kept (`Ledger.OwnedAppend`). |
| Ledger.OwnedAppend | pizzariaserver/server.js:300 | The query by owner distributes over concatenation, so it keeps stored order. |
| Ledger.Others | pizzariaserver/server.js:347 | After one user's lines are deleted, a line remains iff it belongs to another user. |
| Ledger.FindLine | pizzariaserver/server.js:266-269 | A found position holds a line with that id owned by that user. No result means no such line exists. |
| Ledger.OwnedAfterClear | pizzariaserver/server.js:347 | Deleting one user's lines empties that user's cart and leaves every other cart exactly as it was. |
| Ledger.OwnedAfterRemove | pizzariaserver/server.js:290 | Deleting one line leaves the carts of users who do not own it unchanged. |
| Ledger.OwnedAfterUpdate | pizzariaserver/server.js:271-275 | Rewriting one line (same owner) leaves the other users' carts unchanged. |
| Ledger.OthersKeepsUniqueIds | pizzariaserver/server.js:347 | Deleting a user's lines keeps line ids unique. |
| Server.Store.PlaceOrder | pizzariaserver/server.js:321-347 | If the caller's cart is empty, an empty-cart error and no change. Otherwise exactly one order is appended: the caller's, total = sum of price × quantity over the caller's lines, items = their snapshot, status confirmed. The caller's cart ends empty and every other user's cart is unchanged. The value of all carts before equals the order total plus the value left in the carts. |
| Ledger.OrderKeepsUniqueIds | pizzariaserver/server.js:331-346 | Saving an order with a fresh id keeps order ids distinct and below the next free id. |
| Ledger.OrderKeepsIncreasingIds | pizzariaserver/server.js:331-346 | Saving an order whose id is above every stored id keeps ids growing in creation order. |
| Ledger.Snapshot | pizzariaserver/server.js:333-341 | One order item per cart line, in order, copying type, name, base pizza, price, quantity, ingredients and image. |
| Ledger.ItemOf | pizzariaserver/server.js:333-341 | The copy of one line into an order item. No contract; `Ledger.Snapshot` states its fields position by position. |
| Ledger.SnapshotTotal | pizzariaserver/server.js:329-342 | The stored total equals the total recomputed from the order's own items. |
| Ledger.LineSumAppend | pizzariaserver/server.js:329 | The order total of two sequences of lines concatenated is the sum of their totals. |
| Ledger.LineSum | pizzariaserver/server.js:329 | The order total, accumulated from the first line. It has no contract of its own; `Ledger.LineSumAppend`, `Ledger.LineSumSplitsByOwner`, `Ledger.SnapshotTotal` and `ShoppingCart.TotalMatchesOrderTotal` characterise it. |
| Ledger.Subtotal | pizzariaserver/server.js:329 | One line's price × quantity. No contract; it is the summand of `Ledger.LineSum`. |
| Ledger.LineSumSplitsByOwner | pizzariaserver/server.js:322-347 | The value of all carts is one user's order total plus the value of the other users' carts. |
| Server.Store.ListOrders | pizzariaserver/server.js:362-365 | The caller's orders, newest first: order ids strictly fall along the list (ids grow with creation, a store invariant). An order is listed iff it is stored and the caller's. |
| Ledger.Reverse | pizzariaserver/server.js:364 | Newest-first order: position k holds the element k places from the end, and the elements are those of the input. |
| Ledger.OwnedOrders | pizzariaserver/server.js:364 | An order is the user's iff it is stored with that owner; stored order is kept (`Ledger.OwnedOrdersAppend`). |
| Ledger.OwnedOrdersAppend | pizzariaserver/server.js:364 | The query by owner distributes over concatenation, so it keeps stored order. |
| Ledger.OwnedOrdersKeepsIncreasingIds | pizzariaserver/server.js:364 | If order ids grow along the stored list, they grow along one user's orders too. |
| Ledger.ReverseDecreasesIds | pizzariaserver/server.js:364 | Reversing orders whose ids grow yields orders whose ids fall: newest first. |
| Server.Store.GetOrder | pizzariaserver/server.js:372-378 | Not found exactly when the caller has no order with that id. Otherwise the stored order with that id, owned by the caller. |
| Ledger.FindOrder | pizzariaserver/server.js:374-377 | A found order is stored, has that id and the caller as owner. No result means none exists. |
| Server.Store.Recommendations | pizzariaserver/server.js:387-412 | The result is `Ledger.Recommend` of the caller's orders and the catalog, and holds at most three pizzas. |
| Ledger.Recommend | pizzariaserver/server.js:387-412 | At most three pizzas, all from the catalog. A user without orders gets the first three catalog pizzas. |
| Ledger.PizzaNames | pizzariaserver/server.js:397-399 | A name is collected iff some item of type 'pizza' has it. |
| Ledger.OrderedPizzaNames | pizzariaserver/server.js:396-400 | A name is collected iff it is a pizza-item name of one of the user's orders. |
| Ledger.Unordered | pizzariaserver/server.js:403-404 | A catalog pizza is kept iff its name is not among the ordered names; the kept pizzas stay in catalog order (`Ledger.UnorderedAppend`). |
| Ledger.UnorderedAppend | pizzariaserver/server.js:403-404 | Filtering keeps catalog order: filtering a concatenation is the concatenation of the filtered parts. |
| Ledger.Take | pizzariaserver/server.js:392 | The first k elements, or all when there are fewer: a prefix of length min(k, length). |
| Ledger.NewIds | pizzariaserver/server.js:409 | A backfill candidate is added iff no pizza already recommended has its id. |
| Ledger.NewIdsAppend | pizzariaserver/server.js:409 | The backfill filter keeps catalog order in the same way. |
| Ledger.TopUp | pizzariaserver/server.js:403-410 | At most three pizzas, each unordered or from the catalog. With three or more unordered pizzas it is their first three; otherwise it starts with all of them. |
| Ledger.TopUpBackfill | pizzariaserver/server.js:407-409 | With n < 3 unordered pizzas, the result is those n followed by the backfill filter applied to the first 3 − n catalog pizzas, in catalog order. |
| Ledger.TopUpBackfillMembers | pizzariaserver/server.js:407-409 | With n < 3 unordered pizzas, the pizzas after them are exactly those among the first 3 − n catalog pizzas whose id is not already recommended. |
| Ledger.RecommendPrefersUnordered | pizzariaserver/server.js:402-410 | For a user with orders, the result starts with the unordered pizzas in catalog order. With three or more of them it is exactly the first three. Its leading pizzas were never ordered. |
| Ledger.RecommendUniqueIds | pizzariaserver/server.js:407-410 | With distinct catalog ids, no id is recommended twice. |
| Ledger.TopUpKeepsUniqueIds | pizzariaserver/server.js:405-410 | Topping up unordered pizzas with distinct ids from a catalog with distinct ids keeps ids distinct. |
| Ledger.BackfillKeepsUniqueIds | pizzariaserver/server.js:409 | Pushing the filtered backfill onto recommendations with distinct ids keeps ids distinct. |
| Ledger.PrefixKeepsUniqueIds | pizzariaserver/server.js:405 | Taking a prefix keeps ids distinct. |
| Ledger.UnorderedKeepsUniqueIds | pizzariaserver/server.js:403-404 | Filtering the catalog keeps ids distinct. |
| Ledger.NewIdsKeepsUniqueIds | pizzariaserver/server.js:409 | Filtering backfill candidates keeps ids distinct. |
| Ledger.BackfillCanFallShort | pizzariaserver/server.js:407-410 | Concrete case: with catalog A, B, C, D and an order of B, C and D, the result is only A and B. |
| CustomPizza.Builder.constructor | pizzariaapp/src/components/BuildUrPizza.js:9-16 | Scratch mode, no base, no ingredients, total 0, over the fetched pizza and ingredient lists. |
| CustomPizza.BasePrice | pizzariaapp/src/components/BuildUrPizza.js:39 | The base's price, or 0 without a base. No contract; it is the base part of the `Builder` invariant that every method keeps. |
| CustomPizza.IngredientSum | pizzariaapp/src/components/BuildUrPizza.js:48-51 | The selected ingredients' price sum. No contract; `CustomPizza.IngredientSumAppend`, `CustomPizza.WithoutIdSum` and `CustomPizza.ToggledSum` characterise it, and the `Builder` invariant ties it to the running total. |
| CustomPizza.Builder.SelectBase | pizzariaapp/src/components/BuildUrPizza.js:37-41 | The base is the chosen pizza, the ingredients are cleared and the total is the base's price. The invariant holds. |
| CustomPizza.Builder.ToggleIngredient | pizzariaapp/src/components/BuildUrPizza.js:43-53 | The selection becomes `Toggled`. The total moves down by the ingredient's price if its id was selected, up otherwise. The invariant (total = base + ingredients, distinct ids) is kept. |
| CustomPizza.Toggled | pizzariaapp/src/components/BuildUrPizza.js:44-52 | The toggled id is selected afterwards iff it was not before. Other ingredients are unaffected. A new one is appended at the end. |
| CustomPizza.WithoutId | pizzariaapp/src/components/BuildUrPizza.js:47 | An ingredient is kept iff its id differs; the id is absent afterwards; selection order is kept (`CustomPizza.WithoutIdAppend`). |
| CustomPizza.WithoutIdAppend | pizzariaapp/src/components/BuildUrPizza.js:47 | Removing by id distributes over concatenation, so the remaining ingredients keep their order. |
| CustomPizza.ToggledSum | pizzariaapp/src/components/BuildUrPizza.js:43-53 | Toggling a catalog ingredient changes the selection's price sum by exactly its price, down or up, and keeps ids distinct. |
| CustomPizza.ToggleTwiceRestores | pizzariaapp/src/components/BuildUrPizza.js:43-53 | Adding then removing an unselected ingredient restores the selection exactly. |
| CustomPizza.ToggleTwiceReorders | pizzariaapp/src/components/BuildUrPizza.js:43-53 | Removing then re-adding a selected ingredient moves it to the end: the same multiset and the same sum. |
| CustomPizza.WithoutIdSum | pizzariaapp/src/components/BuildUrPizza.js:47-48 | Removing a selected ingredient subtracts exactly its price. |
| CustomPizza.WithoutIdMultiset | pizzariaapp/src/components/BuildUrPizza.js:47 | With distinct ids, the filter removes exactly the one ingredient. |
| CustomPizza.IngredientSumAppend | pizzariaapp/src/components/BuildUrPizza.js:50-51 | Appending ingredients adds their prices. |
| CustomPizza.Names | pizzariaapp/src/components/BuildUrPizza.js:77 | The posted ingredient names are the selected ingredients' names, position by position. |
| CustomPizza.AddDisabledIffCannotBuild | pizzariaapp/src/components/BuildUrPizza.js:227-228 | The "Add to Cart" button is disabled exactly when the build guard would refuse. |
| CustomPizza.CanBuild | pizzariaapp/src/components/BuildUrPizza.js:56-66 | The build guard: at least one ingredient in scratch mode, a base in base mode. No contract; `CustomPizza.Builder.Build` produces a line exactly when it holds. |
| CustomPizza.AddDisabled | pizzariaapp/src/components/BuildUrPizza.js:227-228 | The button's disabled condition. No contract; `CustomPizza.AddDisabledIffCannotBuild` proves it is the negated build guard. |
| CustomPizza.CustomLine | pizzariaapp/src/components/BuildUrPizza.js:68-81 | The custom line: type custom, quantity 1, price = running total, the selected names. In base mode it carries the base's name, price and image. In scratch mode it has the fixed name, no base, base price 0 and the stock image. |
| CustomPizza.Builder.Build | pizzariaapp/src/components/BuildUrPizza.js:55-93 | A line is produced iff the mode's guard passes; it is `CustomLine` of the state before. Its price is the base price plus the ingredients' prices. After a successful post the build is reset; otherwise the state is unchanged. |
| CustomPizza.Builder.Reset | pizzariaapp/src/components/BuildUrPizza.js:95-99 | No base, no ingredients, total 0, same mode. |
| CustomPizza.Builder.ChooseMode | pizzariaapp/src/components/BuildUrPizza.js:123-135 | The new mode with a reset build. |
| ShoppingCart.TotalMatchesOrderTotal | pizzariaapp/src/components/ShoppingCart.js:68-70 | When no line has quantity 0, the page's total equals the server's order total for the same lines. |
| ShoppingCart.CalculateTotal | pizzariaapp/src/components/ShoppingCart.js:68-70 | The page's total. No contract; `ShoppingCart.TotalMatchesOrderTotal`, `ShoppingCart.TotalOfShownLines` and `ShoppingCart.ZeroQuantityCountsOnce` characterise it. |
| ShoppingCart.QuantityOrOne | pizzariaapp/src/components/ShoppingCart.js:69 | A quantity of 0 counts as 1. No contract; `ShoppingCart.ZeroQuantityCountsOnce` and `ShoppingCart.TotalMatchesOrderTotal` state its effect on the total. |
| ShoppingCart.LineTotal | pizzariaapp/src/components/ShoppingCart.js:167 | The amount shown beside a line. No contract; `ShoppingCart.TotalOfShownLines` proves the page's total adds it up for non-zero quantities. |
| ShoppingCart.TotalOfShownLines | pizzariaapp/src/components/ShoppingCart.js:68-70 | A line with a non-zero quantity adds to the page's total the amount shown beside it. |
| ShoppingCart.ZeroQuantityCountsOnce | pizzariaapp/src/components/ShoppingCart.js:69 | A line of quantity 0 counts once on the page and nothing in the order total, so the two totals differ. |
| ShoppingCart.DecrementDisabledIffRefused | pizzariaapp/src/components/ShoppingCart.js:161-163 | The decrement button is disabled exactly when the quantity it would send is `Refused` by `updateQuantity`'s guard. The increment button's quantity is refused only for a line whose quantity is already negative. |
| ShoppingCart.DecrementDisabled | pizzariaapp/src/components/ShoppingCart.js:161 | The decrement button's disabled condition. No contract; characterised by `ShoppingCart.DecrementDisabledIffRefused`. |
| ShoppingCart.Refused | pizzariaapp/src/components/ShoppingCart.js:44 | The guard of `updateQuantity`. No contract; `ShoppingCart.CartPage.UpdateQuantity` sends no request exactly when it holds. |
| ShoppingCart.CartPage.constructor | pizzariaapp/src/components/ShoppingCart.js:7 | The page starts with no lines. |
| ShoppingCart.CartPage.Load | pizzariaapp/src/components/ShoppingCart.js:19-23 | The shown lines become the fetched list. |
| ShoppingCart.CartPage.UpdateQuantity | pizzariaapp/src/components/ShoppingCart.js:43-46 | No request is sent exactly when the new quantity is `Refused` (below 1). A request carries that id and quantity. |
| ShoppingCart.CartPage.ProceedToCheckout | pizzariaapp/src/components/ShoppingCart.js:72-92 | An order is requested iff the cart shown is non-empty. The shown lines are cleared only when the request succeeded and are kept otherwise. |
| ShoppingCart.RecommendationLine | pizzariaapp/src/components/ShoppingCart.js:95-104 | Type pizza, the catalog id (else the database id, else ""), name, price, quantity 1, the image as is, no base, no ingredients. |
| ShoppingCart.RecommendationLineIsMenuLine | pizzariaapp/src/components/ShoppingCart.js:95-104 | The recommended pizza's line is the menu's line except for the image default, and equal to it when the pizza has an image. |
| ShoppingCart.OrderedRecommendationIsExcluded | pizzariaapp/src/components/ShoppingCart.js:94-107 | Once a recommended pizza added here is ordered, the unordered pizzas that recommendations are drawn from first no longer include it. |
| PizzaMenu.ItemIdOf | pizzariaapp/src/components/OrderPizza.js:30 | The seeded id if non-empty, else the database id. Empty exactly when both are empty. |
| PizzaMenu.MenuLine | pizzariaapp/src/components/OrderPizza.js:28-37 | Type pizza, `ItemIdOf`, name, price, quantity 1, the image or "", no base, no ingredients. |
| PizzaMenu.PizzaLineInHistory | pizzariaserver/server.js:333-341 | A cart line of type 'pizza' that went into an order has its name in that user's ordered-pizza names. |
| PizzaMenu.OrderedMenuPizzaIsExcluded | pizzariaapp/src/components/OrderPizza.js:26-40 | Once a pizza added from the menu is ordered, it is no longer among the unordered pizzas that recommendations are drawn from first. |

## Left out

- HTTP itself is not modelled: status codes, JSON response shapes, the messages the client shows, and `setTimeout`.
- Password hashing (bcrypt) is left out; the hash is a parameter of `Server.Store.Register`.
- Token signing and verification (JWT, the `authenticateToken` middleware) are left out; every route receives the resolved user id as `caller`.
- The login route, `/api/auth/me`, the catalog listing routes and the health route are outside this core. The catalog is a fixed list held by the store.
- Persistence, failures and concurrency are left out. Each route runs as one atomic step with no database error. In particular, saving the order and deleting the cart happen together.
- Document ids and timestamps are abstracted: ids come from a counter, and "newest first" is the reverse of creation order.
- Mongoose type casting and validation are left out: malformed ids, non-numeric quantities, a missing quantity in the update body.
- Prices and quantities are whole numbers (the page shows whole rupees). Floating-point arithmetic is not modelled.
- `Server.ToLower`: lower-cases ASCII letters only, because Unicode case mapping is not modelled.
- Password length is counted in characters of the Dafny string, which stand for JavaScript's UTF-16 code units.
- The client's network calls are modelled by their inputs and outcomes. A request is returned as a value, and success or failure of the post or order request is a `bool` parameter. Cart-count refreshes and page navigation are left out.
- The cart page's remove button (`window.confirm`, then the delete route) is covered only by `Server.Store.RemoveLine`.
- Rendering is not modelled, nor are loading flags and the axios default header.
- `CustomPizza.Builder.SelectBase`: requires base mode, because the base grid is only rendered in base mode.
- `CustomPizza.Builder.ToggleIngredient`: requires the ingredient to come from the fetched list, and the constructor requires that list's ids to be distinct. These are the conditions under which the running total is provably the base plus the selected prices.
- The seed data script and the catalog documents' contents are not part of this model.
