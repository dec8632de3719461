/** The shop's user records and the request handlers that read and change them:
    register, add-to-cart, set-quantity, set-balance, view-cart and checkout.
    Requests run one at a time. */
module ShopServer {
  import opened Catalog
  import opened Cart
  import opened Ledger

  /** Users are referred to by an opaque identifier. */
  type UserId = nat

  /** A user record: unique username, balance in cents, ordered cart. */
  datatype User = User(username: string, balance: Cents, cart: seq<CartLine>)

  /** What a handler answers instead of a result. NotFound is sent as status
      404, every other kind as status 400. */
  datatype Error =
    | ValidationError(message: string)
    | NotFound(message: string)
    | Conflict(message: string)
    | InsufficientBalance(message: string)

  datatype Result<T> = Ok(value: T) | Err(error: Error)

  /** A numeric field of a JSON request body: missing, explicitly null, or a
      number (amounts of money in cents). */
  datatype Field = Absent | Null | Given(value: int)

  /** Schema defaults: a new user's balance (100.00) and a cart line's quantity. */
  const DefaultBalance: Cents := 10000
  const DefaultQuantity: int := 1

  datatype Registration = Registration(userId: UserId, balance: Cents)

  /** The order checkout returns; `orderId` is the clock reading it was given. */
  datatype Order = Order(orderId: nat, userId: UserId, products: seq<OrderLine>, total: Cents)

  datatype Receipt = Receipt(order: Order, remainingBalance: Cents)

  /** Add-to-cart's quantity check: a missing quantity passes (it defaults to
      1); null compares as 0 and fails, as does any number below 1. */
  predicate AddQuantityOk(f: Field) {
    f == Absent || (f.Given? && f.value >= 1)
  }

  /** The quantity add-to-cart adds once the check has passed. */
  function AddQuantity(f: Field): int
    requires AddQuantityOk(f)
  {
    if f == Absent then DefaultQuantity else f.value
  }

  /** The check set-quantity and set-balance make: present, not null, not negative. */
  predicate NonNegative(f: Field) {
    f.Given? && f.value >= 0
  }

  predicate UsernameTaken(users: map<UserId, User>, name: string) {
    exists u :: u in users && users[u].username == name
  }

  /** What every stored user satisfies: a username, a balance that is not
      negative, a well-formed cart; and no two users share a username. */
  ghost predicate ValidUsers(users: map<UserId, User>) {
    && (forall u :: u in users ==>
          users[u].username != "" && users[u].balance >= 0 && WellFormed(users[u].cart))
    && (forall u, v :: u in users && v in users && u != v ==> users[u].username != users[v].username)
  }

  /** Replacing one user's record by another under the same name that has a
      balance that is not negative and a well-formed cart keeps the invariant. */
  lemma ValidUsersUpdate(users: map<UserId, User>, u: UserId, user: User)
    requires ValidUsers(users) && u in users
    requires user.username == users[u].username && user.balance >= 0 && WellFormed(user.cart)
    ensures ValidUsers(users[u := user])
  {
  }

  class Shop {
    var users: map<UserId, User>
    /** The identifier the next registration gets. */
    var nextId: UserId

    ghost predicate Valid()
      reads this
    {
      (forall u :: u in users ==> u < nextId) && ValidUsers(users)
    }

    constructor ()
      ensures Valid() && users == map[]
    {
      users := map[];
      nextId := 0;
    }

    /** POST /users/register. */
    method Register(username: string) returns (r: Result<Registration>)
      requires Valid()
      modifies this
      ensures Valid()
      ensures username == "" ==> r == Err(ValidationError("Username required"))
      ensures username != "" && UsernameTaken(old(users), username) ==> r == Err(Conflict("Username exists"))
      ensures r.Err? ==> users == old(users) && nextId == old(nextId)
      ensures r.Ok? <==> username != "" && !UsernameTaken(old(users), username)
      ensures r.Ok? ==>
        && r.value.userId !in old(users)
        && r.value.balance == DefaultBalance
        && users == old(users)[r.value.userId := User(username, DefaultBalance, [])]
        && nextId == old(nextId) + 1
    {
      if username == "" {
        return Err(ValidationError("Username required"));
      }
      if UsernameTaken(users, username) {
        return Err(Conflict("Username exists"));
      }
      var id := nextId;
      users := users[id := User(username, DefaultBalance, [])];
      nextId := nextId + 1;
      r := Ok(Registration(id, DefaultBalance));
    }

    /** POST /users/:userId/cart: add `quantity` (default 1) of a product. */
    method AddToCart(userId: UserId, productId: ProductId, quantity: Field) returns (r: Result<seq<CartLine>>)
      requires Valid()
      modifies this
      ensures Valid() && nextId == old(nextId)
      ensures r.Err? ==> users == old(users)
      ensures !AddQuantityOk(quantity) ==> r == Err(ValidationError("Quantity must be at least 1"))
      ensures AddQuantityOk(quantity) && userId !in old(users) ==> r == Err(NotFound("User not found"))
      ensures AddQuantityOk(quantity) && userId in old(users) && productId !in Products ==>
        r == Err(NotFound("Product not found"))
      ensures AddQuantityOk(quantity) && userId in old(users) && productId in Products ==>
        var newCart := Added(old(users)[userId].cart, productId, AddQuantity(quantity));
        && users == old(users)[userId := old(users)[userId].(cart := newCart)]
        && r == Ok(newCart)
    {
      var q := DefaultQuantity;
      match quantity {
        case Absent =>
        case Null =>
          // null compares as 0, so it is below the minimum
          return Err(ValidationError("Quantity must be at least 1"));
        case Given(v) =>
          if v < 1 {
            return Err(ValidationError("Quantity must be at least 1"));
          }
          q := v;
      }
      if userId !in users {
        return Err(NotFound("User not found"));
      }
      if productId !in Products {
        return Err(NotFound("Product not found"));
      }
      var user := users[userId];
      var cart := user.cart;
      // the in-place edit of the handler (find, then += or push); it is
      // the edit `Added` specifies
      var i := FirstIndex(cart, productId);
      if i >= 0 {
        cart := cart[i := cart[i].(quantity := cart[i].quantity + q)];
      } else {
        cart := cart + [CartLine(productId, q)];
      }
      assert q == AddQuantity(quantity) && cart == Added(user.cart, productId, q);
      AddedWellFormed(user.cart, productId, q);
      ValidUsersUpdate(users, userId, user.(cart := cart));
      users := users[userId := user.(cart := cart)];
      r := Ok(cart);
    }

    /** PUT /users/:userId/cart: set a line's quantity; 0 removes the line. */
    method SetQuantity(userId: UserId, productId: ProductId, quantity: Field) returns (r: Result<seq<CartLine>>)
      requires Valid()
      modifies this
      ensures Valid() && nextId == old(nextId)
      ensures r.Err? ==> users == old(users)
      ensures !NonNegative(quantity) ==> r == Err(ValidationError("Quantity must be non-negative"))
      ensures NonNegative(quantity) && userId !in old(users) ==> r == Err(NotFound("User not found"))
      ensures NonNegative(quantity) && userId in old(users) && !InCart(old(users)[userId].cart, productId) ==>
        r == Err(NotFound("Product not in cart"))
      ensures NonNegative(quantity) && userId in old(users) && InCart(old(users)[userId].cart, productId) ==>
        var newCart := QuantitySet(old(users)[userId].cart, productId, quantity.value);
        && users == old(users)[userId := old(users)[userId].(cart := newCart)]
        && r == Ok(newCart)
    {
      if !NonNegative(quantity) {
        return Err(ValidationError("Quantity must be non-negative"));
      }
      var q := quantity.value;
      if userId !in users {
        return Err(NotFound("User not found"));
      }
      var user := users[userId];
      var cart := user.cart;
      var i := FirstIndex(cart, productId);
      if i == -1 {
        return Err(NotFound("Product not in cart"));
      }
      // the in-place edit of the handler (splice, or set the quantity); it is
      // the edit `QuantitySet` specifies
      if q == 0 {
        cart := cart[..i] + cart[i + 1..];
      } else {
        cart := cart[i := cart[i].(quantity := q)];
      }
      assert cart == QuantitySet(user.cart, productId, q);
      QuantitySetWellFormed(user.cart, productId, q);
      ValidUsersUpdate(users, userId, user.(cart := cart));
      users := users[userId := user.(cart := cart)];
      r := Ok(cart);
    }

    /** PUT /users/:userId/balance: replace the balance. */
    method SetBalance(userId: UserId, balance: Field) returns (r: Result<Cents>)
      requires Valid()
      modifies this
      ensures Valid() && nextId == old(nextId)
      ensures r.Err? ==> users == old(users)
      ensures !NonNegative(balance) ==> r == Err(ValidationError("Balance must be non-negative"))
      ensures NonNegative(balance) && userId !in old(users) ==> r == Err(NotFound("User not found"))
      ensures NonNegative(balance) && userId in old(users) ==>
        && users == old(users)[userId := old(users)[userId].(balance := balance.value)]
        && r == Ok(balance.value)
    {
      if !NonNegative(balance) {
        return Err(ValidationError("Balance must be non-negative"));
      }
      if userId !in users {
        return Err(NotFound("User not found"));
      }
      ValidUsersUpdate(users, userId, users[userId].(balance := balance.value));
      users := users[userId := users[userId].(balance := balance.value)];
      r := Ok(balance.value);
    }

    /** GET /users/:userId/cart: the detailed cart and its total; changes nothing. */
    method ViewCart(userId: UserId) returns (r: Result<CartView>)
      requires Valid()
      ensures userId !in users ==> r == Err(NotFound("User not found"))
      ensures userId in users ==>
        && r.Ok?
        && |r.value.cart| == |users[userId].cart|
        && r.value == View(users[userId].cart)
        && r.value.totalAmount == CartTotal(users[userId].cart)
    {
      if userId !in users {
        return Err(NotFound("User not found"));
      }
      var cart := users[userId].cart;
      ViewTotalIsCartTotal(cart);
      r := Ok(View(cart));
    }

    /** POST /users/:userId/checkout: charge the cart's total, snapshot the
        cart into an order and empty the cart. `orderId` stands for the clock
        reading the order identifier is taken from. */
    method Checkout(userId: UserId, orderId: nat) returns (r: Result<Receipt>)
      requires Valid()
      modifies this
      ensures Valid() && nextId == old(nextId)
      ensures r.Err? ==> users == old(users)
      ensures userId !in old(users) ==> r == Err(NotFound("User not found"))
      ensures userId in old(users) && old(users)[userId].cart == [] ==>
        r == Err(ValidationError("Cart empty"))
      ensures (&& userId in old(users) && old(users)[userId].cart != []
               && old(users)[userId].balance < CartTotal(old(users)[userId].cart)) ==>
        r == Err(InsufficientBalance("Insufficient balance"))
      ensures (&& userId in old(users) && old(users)[userId].cart != []
               && old(users)[userId].balance >= CartTotal(old(users)[userId].cart)) ==>
        var before := old(users)[userId];
        var total := CartTotal(before.cart);
        && r.Ok?
        && r.value.order == Order(orderId, userId, OrderLines(before.cart), total)
        && r.value.order.total == View(before.cart).totalAmount
        && r.value.remainingBalance == before.balance - total >= 0
        && users == old(users)[userId := before.(balance := before.balance - total, cart := [])]
    {
      if userId !in users {
        return Err(NotFound("User not found"));
      }
      var user := users[userId];
      if |user.cart| == 0 {
        return Err(ValidationError("Cart empty"));
      }
      var total := CartTotal(user.cart);
      if user.balance < total {
        return Err(InsufficientBalance("Insufficient balance"));
      }
      var remaining := user.balance - total;
      var order := Order(orderId, userId, OrderLines(user.cart), total);
      ViewTotalIsCartTotal(user.cart);
      ValidUsersUpdate(users, userId, user.(balance := remaining, cart := []));
      users := users[userId := user.(balance := remaining, cart := [])];
      r := Ok(Receipt(order, remaining));
    }
  }
}
