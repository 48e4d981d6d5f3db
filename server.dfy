/** The server's routes (pizzariaserver/server.js) as methods of one store
    object that holds the users, cart lines and orders collections and the
    read-only pizza catalog. Every route receives the id the authentication
    middleware resolved from the bearer token as `caller`. */
module Server {
  import opened Schema
  import opened Ledger

  // ---------------------------------------------------------------- registration

  datatype RegisterError = MissingFields | PasswordTooShort | EmailTaken

  /** Failures of the cart and order routes (all answered with a 4xx status). */
  datatype RouteError = ItemNotFound | CartIsEmpty | OrderNotFound

  /** Lower-casing of one character (ASCII letters only). */
  function LowerChar(c: char): char {
    if 'A' <= c <= 'Z' then (c as int + 32) as char else c
  }

  predicate IsLower(s: string) {
    forall k :: 0 <= k < |s| ==> !('A' <= s[k] <= 'Z')
  }

  /** Lower-casing of a whole address. */
  function ToLower(s: string): (r: string)
    ensures |r| == |s| && IsLower(r)
    ensures IsLower(s) ==> r == s
  {
    seq(|s|, k requires 0 <= k < |s| => LowerChar(s[k]))
  }

  /** Two characters that are equal or are one ASCII letter in its two cases. */
  predicate SameLetterUpToCase(a: char, b: char) {
    || a == b
    || ('A' <= a <= 'Z' && b as int == a as int + 32)
    || ('A' <= b <= 'Z' && a as int == b as int + 32)
  }

  /** Two addresses that differ at most in the case of their letters. */
  predicate SameUpToCase(s: string, t: string) {
    |s| == |t| && forall k :: 0 <= k < |s| ==> SameLetterUpToCase(s[k], t[k])
  }

  /** Two addresses lower-case to the same string exactly when they differ
      at most in letter case. */
  lemma CaseVariantsCollide(s: string, t: string)
    ensures ToLower(s) == ToLower(t) <==> SameUpToCase(s, t)
  {
    if SameUpToCase(s, t) {
      assert forall k :: 0 <= k < |s| ==> ToLower(s)[k] == ToLower(t)[k];
    }
    if ToLower(s) == ToLower(t) {
      forall k | 0 <= k < |s| ensures SameLetterUpToCase(s[k], t[k]) {
        assert ToLower(s)[k] == ToLower(t)[k];
      }
    }
  }

  /** Some stored user has exactly this email. */
  predicate EmailRegistered(users: seq<User>, email: string) {
    exists u :: u in users && u.email == email
  }

  /** The checks of the registration route, in their order: all three fields
      present and non-empty, a password of at least 6 characters, an email
      whose lower-case form no user has. On success, the email to store. */
  function ValidateRegistration(name: Option<string>, email: Option<string>, password: Option<string>,
                                users: seq<User>): (r: Result<string, RegisterError>)
    ensures r == Err(MissingFields) <==> !(Truthy(name) && Truthy(email) && Truthy(password))
    ensures r == Err(PasswordTooShort) <==>
      Truthy(name) && Truthy(email) && Truthy(password) && |password.value| < 6
    ensures r == Err(EmailTaken) <==>
      Truthy(name) && Truthy(email) && Truthy(password) && |password.value| >= 6 &&
      exists u :: u in users && u.email == ToLower(email.value)
    ensures r.Ok? ==> r.value == ToLower(email.value) && IsLower(r.value)
    ensures r.Ok? ==> forall u :: u in users ==> u.email != r.value
  {
    if !Truthy(name) || !Truthy(email) || !Truthy(password) then Err(MissingFields)
    else if |password.value| < 6 then Err(PasswordTooShort)
    else if EmailRegistered(users, ToLower(email.value)) then Err(EmailTaken)
    else Ok(ToLower(email.value))
  }

  /** Once an address is stored (lower-cased), registering it again in any
      letter case fails, with the taken-email error once the other checks pass. */
  lemma RegistrationIsCaseInsensitive(name: Option<string>, email: Option<string>, password: Option<string>,
                                      users: seq<User>, u: User)
    requires u in users && IsLower(u.email) && Truthy(email) && SameUpToCase(email.value, u.email)
    ensures ValidateRegistration(name, email, password, users).Err?
    ensures Truthy(name) && Truthy(password) && |password.value| >= 6 ==>
      ValidateRegistration(name, email, password, users) == Err(EmailTaken)
  {
    CaseVariantsCollide(email.value, u.email);
  }

  /** Conversely, with lower-cased stored addresses, an address that is no
      stored address up to letter case passes the uniqueness check. */
  lemma RegistrationAcceptsNewAddress(name: Option<string>, email: Option<string>, password: Option<string>,
                                      users: seq<User>)
    requires forall u :: u in users ==> IsLower(u.email)
    requires Truthy(name) && Truthy(email) && Truthy(password) && |password.value| >= 6
    requires forall u :: u in users ==> !SameUpToCase(email.value, u.email)
    ensures ValidateRegistration(name, email, password, users) == Ok(ToLower(email.value))
  {
    forall u | u in users ensures u.email != ToLower(email.value) {
      CaseVariantsCollide(email.value, u.email);
    }
  }

  // ---------------------------------------------------------------- the store

  class Store {
    var users: seq<User>
    var cart: seq<CartLine>
    var orders: seq<Order>
    const catalog: seq<CatalogPizza>
    /** Source of fresh document ids; larger than every id in use. */
    var nextId: Id

    ghost predicate Valid()
      reads this
    {
      && (forall u :: u in users ==> u.id < nextId && IsLower(u.email))
      && (forall i, j :: 0 <= i < j < |users| ==> users[i].email != users[j].email)
      && (forall i, j :: 0 <= i < j < |users| ==> users[i].id != users[j].id)
      && (forall l :: l in cart ==> l.id < nextId)
      && UniqueLineIds(cart)
      && (forall o :: o in orders ==> o.id < nextId)
      && UniqueOrderIds(orders)
      && IncreasingOrderIds(orders)
    }

    constructor (catalog: seq<CatalogPizza>)
      ensures Valid()
      ensures users == [] && cart == [] && orders == [] && this.catalog == catalog
    {
      users, cart, orders := [], [], [];
      this.catalog := catalog;
      nextId := 0;
    }

    /** POST /api/auth/register. `hashed` is the bcrypt hash of the password,
        computed outside the model. */
    method Register(name: Option<string>, email: Option<string>, password: Option<string>, hashed: string)
      returns (r: Result<User, RegisterError>)
      requires Valid()
      modifies this
      ensures Valid()
      ensures var v := ValidateRegistration(name, email, password, old(users));
        && (v.Err? ==> r == Err(v.error) && users == old(users))
        && (v.Ok? ==> r == Ok(User(old(nextId), name.value, v.value, hashed)) && users == old(users) + [r.value])
      ensures cart == old(cart) && orders == old(orders)
    {
      var v := ValidateRegistration(name, email, password, users);
      if v.Err? {
        return Err(v.error);
      }
      var user := User(nextId, name.value, v.value, hashed);
      users := users + [user];
      nextId := nextId + 1;
      r := Ok(user);
    }

    /** POST /api/cart: store the body as a new line owned by the caller. */
    method AddLine(caller: Id, body: CartBody) returns (line: CartLine)
      requires Valid()
      modifies this
      ensures Valid()
      ensures line == NewLine(old(nextId), caller, body) && line.userId == caller
      ensures cart == old(cart) + [line]
      ensures users == old(users) && orders == old(orders)
    {
      line := NewLine(nextId, caller, body);
      cart := cart + [line];
      nextId := nextId + 1;
    }

    /** PUT /api/cart/:id: set the quantity of one of the caller's lines.
        Any integer is accepted. */
    method UpdateQuantity(caller: Id, id: Id, quantity: int) returns (r: Result<CartLine, RouteError>)
      requires Valid()
      modifies this
      ensures Valid()
      ensures r.Err? <==> forall l :: l in old(cart) ==> l.id != id || l.userId != caller
      ensures r.Err? ==> r.error == ItemNotFound && cart == old(cart)
      ensures r.Ok? ==> exists k :: 0 <= k < |old(cart)| && old(cart)[k].id == id && old(cart)[k].userId == caller
                                    && r.value == old(cart)[k].(quantity := quantity)
                                    && cart == old(cart)[k := r.value]
      ensures forall v :: v != caller ==> Owned(cart, v) == Owned(old(cart), v)
      ensures users == old(users) && orders == old(orders) && nextId == old(nextId)
    {
      var found := FindLine(cart, caller, id);
      if found.None? {
        return Err(ItemNotFound);
      }
      var k := found.value;
      var updated := cart[k].(quantity := quantity);
      forall v | v != caller ensures Owned(cart[k := updated], v) == Owned(cart, v) {
        OwnedAfterUpdate(cart, k, updated, v);
      }
      cart := cart[k := updated];
      r := Ok(updated);
    }

    /** DELETE /api/cart/:id: delete one of the caller's lines. */
    method RemoveLine(caller: Id, id: Id) returns (r: Result<(), RouteError>)
      requires Valid()
      modifies this
      ensures Valid()
      ensures r.Err? <==> forall l :: l in old(cart) ==> l.id != id || l.userId != caller
      ensures r.Err? ==> r.error == ItemNotFound && cart == old(cart)
      ensures r.Ok? ==> exists k :: 0 <= k < |old(cart)| && old(cart)[k].id == id && old(cart)[k].userId == caller
                                    && cart == RemoveAt(old(cart), k)
      ensures r.Ok? ==> forall l :: l in old(cart) ==> (l in cart <==> l.id != id)
      ensures forall v :: v != caller ==> Owned(cart, v) == Owned(old(cart), v)
      ensures users == old(users) && orders == old(orders) && nextId == old(nextId)
    {
      var found := FindLine(cart, caller, id);
      if found.None? {
        return Err(ItemNotFound);
      }
      var k := found.value;
      var rest := RemoveAt(cart, k);
      forall v | v != caller ensures Owned(rest, v) == Owned(cart, v) {
        OwnedAfterRemove(cart, k, v);
      }
      RemoveAtLines(cart, k);
      RemoveAtKeepsUniqueIds(cart, k);
      assert forall l :: l in rest ==> l in cart;
      cart := rest;
      r := Ok(());
    }

    /** GET /api/cart. */
    method ListLines(caller: Id) returns (lines: seq<CartLine>)
      ensures lines == Owned(cart, caller)
      ensures forall l :: l in lines <==> l in cart && l.userId == caller
    {
      lines := Owned(cart, caller);
    }

    /** GET /api/cart/count. */
    method CountLines(caller: Id) returns (count: nat)
      ensures count == |Owned(cart, caller)|
    {
      count := |Owned(cart, caller)|;
    }

    /** POST /api/orders: turn the caller's cart into a confirmed order and
        delete the caller's lines. */
    method PlaceOrder(caller: Id) returns (r: Result<Order, RouteError>)
      requires Valid()
      modifies this
      ensures Valid()
      ensures old(Owned(cart, caller)) == [] ==>
        r == Err(CartIsEmpty) && cart == old(cart) && orders == old(orders) && nextId == old(nextId)
      ensures old(Owned(cart, caller)) != [] ==>
        && r.Ok?
        && r.value.userId == caller
        && r.value.totalAmount == LineSum(old(Owned(cart, caller)))
        && r.value.items == Snapshot(old(Owned(cart, caller)))
        && r.value.status == Confirmed
        && orders == old(orders) + [r.value]
        && Owned(cart, caller) == []
        && (forall v :: v != caller ==> Owned(cart, v) == Owned(old(cart), v))
        && LineSum(old(cart)) == r.value.totalAmount + LineSum(cart)
      ensures users == old(users)
    {
      var mine := Owned(cart, caller);
      if |mine| == 0 {
        return Err(CartIsEmpty);
      }
      var order := Order(nextId, caller, Snapshot(mine), LineSum(mine), Confirmed);
      OrderKeepsUniqueIds(orders, order, nextId);
      OrderKeepsIncreasingIds(orders, order);
      orders := orders + [order];
      var rest := Others(cart, caller);
      forall v ensures Owned(rest, v) == if v == caller then [] else Owned(cart, v) {
        OwnedAfterClear(cart, caller, v);
      }
      OthersKeepsUniqueIds(cart, caller);
      LineSumSplitsByOwner(cart, caller);
      cart := rest;
      nextId := nextId + 1;
      r := Ok(order);
    }

    /** GET /api/orders: the caller's orders, newest first. */
    method ListOrders(caller: Id) returns (list: seq<Order>)
      requires Valid()
      ensures list == Reverse(OwnedOrders(orders, caller))
      ensures forall o :: o in list <==> o in orders && o.userId == caller
      ensures forall i, j :: 0 <= i < j < |list| ==> list[i].id > list[j].id
    {
      var owned := OwnedOrders(orders, caller);
      OwnedOrdersKeepsIncreasingIds(orders, caller);
      ReverseDecreasesIds(owned);
      list := Reverse(owned);
    }

    /** GET /api/orders/:id: one of the caller's orders. */
    method GetOrder(caller: Id, id: Id) returns (r: Result<Order, RouteError>)
      ensures r.Err? <==> forall o :: o in orders ==> o.id != id || o.userId != caller
      ensures r.Err? ==> r.error == OrderNotFound
      ensures r.Ok? ==> r.value in orders && r.value.id == id && r.value.userId == caller
    {
      var found := FindOrder(orders, caller, id);
      if found.None? {
        return Err(OrderNotFound);
      }
      r := Ok(found.value);
    }

    /** GET /api/recommendations. */
    method Recommendations(caller: Id) returns (recommendations: seq<CatalogPizza>)
      ensures recommendations == Recommend(OwnedOrders(orders, caller), catalog)
      ensures |recommendations| <= 3
    {
      var mine := OwnedOrders(orders, caller);
      if |mine| == 0 {
        return Take(catalog, 3);
      }
      var orderedPizzaNames := OrderedPizzaNames(mine);
      var unordered := Unordered(catalog, orderedPizzaNames);
      var recs := Take(unordered, 3);
      if |recs| < 3 {
        assert recs == unordered;
        var additionalPizzas := Take(catalog, 3 - |recs|);
        recommendations := recs + NewIds(additionalPizzas, recs);
      } else {
        assert recs == unordered[..3];
        recommendations := recs;
      }
      assert recommendations == TopUp(unordered, catalog);
    }
  }
}
