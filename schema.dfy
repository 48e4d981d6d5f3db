/** Records of the pizzeria: the documents of the server's collections
    (users, pizzas, ingredients, shopping cart lines, orders) and the JSON
    bodies the web client posts to the cart endpoint.

    Prices are whole rupees (every price is shown as `₹<price>.00`), so they
    are integers here. Record identifiers are natural numbers handed out by a
    counter. Fields that a JSON body or a document may lack are `Option`s;
    JavaScript's "falsy" strings are `None` and `Some("")`. */
module Schema {

  datatype Option<+T> = None | Some(value: T) {
    /** `x || default` for a field that is either present or absent. */
    function GetOr(default: T): T {
      match this
      case Some(v) => v
      case None => default
    }
  }

  datatype Result<+T, +E> = Ok(value: T) | Err(error: E)

  /** Identifier of a stored document (a user, a cart line, an order). */
  type Id = nat

  /** JavaScript truthiness of an optional string: absent and "" are falsy. */
  predicate Truthy(s: Option<string>) {
    s.Some? && s.value != ""
  }

  /** The `itemType` of a catalog pizza put in the cart. */
  const PizzaKind: string := "pizza"
  /** The `itemType` of a pizza assembled in the builder. */
  const CustomKind: string := "custom"
  /** The only order status the server ever writes. */
  const Confirmed: string := "confirmed"

  /** A registered user; `password` holds the salted hash, never the password. */
  datatype User = User(id: Id, name: string, email: string, password: string)

  /** A catalog pizza. `dbId` is the database's own `_id`, always present;
      `id` is the seeded string id, which a document may lack. */
  datatype CatalogPizza = CatalogPizza(
    dbId: string,
    id: Option<string>,
    kind: Option<string>,
    price: int,
    name: string,
    image: Option<string>,
    description: string,
    ingredients: seq<string>,
    topping: seq<string>)

  /** An add-on ingredient offered by the pizza builder. */
  datatype Ingredient = Ingredient(id: int, tname: string, price: int, image: string)

  /** The JSON body posted to the cart endpoint: any field may be missing.
      `basePizza: null` and an absent `basePizza` are both `None`. */
  datatype CartBody = CartBody(
    userId: Option<Id>,
    itemType: Option<string>,
    itemId: Option<string>,
    name: Option<string>,
    basePizza: Option<string>,
    basePizzaPrice: Option<int>,
    price: Option<int>,
    quantity: Option<int>,
    customIngredients: Option<seq<string>>,
    image: Option<string>)

  /** A stored cart line: the schema fills `basePizzaPrice`, `price`,
      `quantity` and `customIngredients` with defaults, the rest may be absent. */
  datatype CartLine = CartLine(
    id: Id,
    userId: Id,
    itemType: Option<string>,
    itemId: Option<string>,
    name: Option<string>,
    basePizza: Option<string>,
    basePizzaPrice: int,
    price: int,
    quantity: int,
    customIngredients: seq<string>,
    image: Option<string>)

  /** One line of an order: a copy of a cart line's fields, with no reference back. */
  datatype OrderItem = OrderItem(
    itemType: Option<string>,
    name: Option<string>,
    basePizza: Option<string>,
    price: int,
    quantity: int,
    customIngredients: seq<string>,
    image: Option<string>)

  datatype Order = Order(id: Id, userId: Id, items: seq<OrderItem>, totalAmount: int, status: string)
}
