# Online shop: cart and checkout ledger

A Dafny model of the request handlers of a small online-shop backend
(`server.js`). Users register under a unique username and start with a balance
of 100.00 and an empty cart. They add catalog products to the cart, set or
remove cart lines, set their balance and view the cart with line totals. At
checkout the cart's total is charged against the balance, the cart is copied
into an order and the cart is emptied.

Layout:

- `catalog.dfy` (module `Catalog`): the three seeded products and their prices.
- `cart.dfy` (module `Cart`): cart lines, the cart invariant, and the two cart
  edits as specification functions. `Added` is add-to-cart and `QuantitySet` is
  set-quantity. Each comes with lemmas that state its effect on the reference
  meaning `QuantityOf` (how many units of each product the cart holds) and on
  line order.
- `ledger.dfy` (module `Ledger`): the view-cart reply (`DetailedCart`, `View`),
  the checkout total (`CartTotal`), the order snapshot (`OrderLines`) and the
  lemmas relating them.
- `shop.dfy` (module `ShopServer`): the class `Shop`, which holds the user
  records in a map that its methods update. There is one method per handler.
  Each returns `Ok` or an `Err` of kind `ValidationError`, `NotFound`,
  `Conflict` or `InsufficientBalance`, carrying the message the handler sends.
  `Valid()` is the store invariant: every balance is non-negative, every cart
  is well formed (lines refer to catalog products, quantities are at least 1,
  no product has two lines), and usernames are non-empty and unique. Every
  method keeps it.
- `scenario.dfy` (module `ShopScenario`): client methods showing what the
  contracts let a caller conclude. One is the worked example of a balance of
  100.00 with a T-shirt and jeans in the cart: view-cart reports 69.98, and
  checkout leaves 30.02.

Modelling choices:

- Money is integer cents (19.99 is `1999`). The source rounds with
  `toFixed(2)`; with whole cents that rounding is the identity. So view-cart's
  total, which sums rounded line totals, equals checkout's total, which sums
  unrounded products. `Ledger.ViewTotalIsCartTotal` states this.
- A numeric body field is `Field = Absent | Null | Given(n)`. This keeps the
  JavaScript distinctions the handlers depend on:
  - the add-to-cart default `quantity = 1` applies only to a missing field;
  - an explicit `null` there compares as 0, so it fails the `< 1` check;
  - `x == null` in set-quantity and set-balance matches both missing and null.
- A missing username is the empty string, since `!username` refuses both.
- Product and user identifiers are natural numbers. A new user's identifier
  comes from a counter (`nextId`). The order identifier, which the source takes
  from the clock, is a parameter of `Checkout`.
- Requests are handled one after another. Each method's effect on the map is
  that request's effect on the stored documents.
- The error checks run in the source's order, and each method's contract
  states that order. Add-to-cart checks the quantity before it looks up the
  user, and checkout checks that the user exists, then that the cart is
  non-empty, then the balance.

## Model

| member | source | states |
|---|---|---|
| `Catalog.Price` | server.js:42-46 | every seeded product has a positive unit price |
| `Cart.FirstIndex` | server.js:110 | the cart lookup returns -1 exactly when no line has the product, and otherwise the first line that has it |
| `Cart.Added` | server.js:110-115 | definition, no contract: the first line for the product grows by the quantity; when there is none, a new line is appended at the end |
| `Cart.QuantitySet` | server.js:135-141 | definition, no contract: for a product in the cart, quantity 0 splices out its first line; any other quantity overwrites that line's quantity |
| `Cart.AddedWellFormed` | server.js:110-115 | with a catalog product and a quantity of at least 1, add-to-cart keeps the cart invariant (one line per product, quantities at least 1, catalog products only) |
| `Cart.AddedQuantity` | server.js:110-115 | add-to-cart raises the held quantity of the product by exactly the requested amount and changes no other product's quantity |
| `Cart.AddedShape` | server.js:110-115 | the cart grows by one line exactly when the product had none, and that new line is at the end; otherwise the length stays; lines of other products keep their position and value |
| `Cart.AddedTwice` | server.js:110-115 | adding a then b units of one product leaves the same cart as adding a + b once: the line is merged, never duplicated |
| `Cart.QuantitySetWellFormed` | server.js:135-142 | set-quantity with a non-negative quantity on a product in the cart keeps the cart invariant |
| `Cart.QuantitySetQuantity` | server.js:138-142 | after set-quantity the held quantity of the product is exactly the given value (0 once removed), and every other product's is unchanged |
| `Cart.QuantitySetRemoves` | server.js:138-139 | quantity 0 removes exactly that product's line: the result is the cart with that product filtered out, other lines in order, one line shorter |
| `Cart.QuantitySetReplaces` | server.js:140-141 | a non-zero quantity replaces, not increments, the line's quantity; the length and every other line stay as they were |
| `Cart.QuantityOfLine` | server.js:110-115 | in a well-formed cart the held quantity of a product is the quantity of its one line |
| `Ledger.LineTotal` | server.js:182 | definition, no contract: a line's total is unit price × quantity (the same product is summed at line 202) |
| `Ledger.CartTotal` | server.js:202 | definition, no contract: the checkout total is the sum of unit price × quantity over the cart's lines |
| `Ledger.SumOfTotals` | server.js:185 | definition, no contract: view-cart's totalAmount is the sum of the entries' totalPrice values |
| `Ledger.View` | server.js:177-186 | definition, no contract: the view-cart reply is the detailed cart together with the sum of its line totals |
| `Ledger.DetailedCart` | server.js:177-183 | view-cart lists every cart line in order, with the product's id, name, price, the quantity, and totalPrice = price × quantity |
| `Ledger.ViewTotalIsCartTotal` | server.js:185-186 | view-cart's totalAmount (sum of line totals) equals the checkout total of line 202 (sum of price × quantity) |
| `Ledger.OrderLines` | server.js:210-215 | the order lists every pre-checkout cart line in order, with id, name, quantity and unit price |
| `Ledger.OrderMatchesView` | server.js:210-215 | each order line carries the same product id, name, quantity and unit price as the view-cart entry at the same position |
| `Ledger.CartTotalPositive` | server.js:202 | a well-formed cart's total is non-negative, and positive when the cart is not empty |
| `Ledger.AddedTotal` | server.js:110-115 | add-to-cart raises the cart total by exactly unit price × added quantity |
| `Ledger.QuantitySetTotal` | server.js:138-142 | set-quantity changes the cart total by unit price × (new quantity − old quantity); a removal takes off the line's whole total |
| `Ledger.CartTotalConcat` | server.js:202 | the checkout total of two carts joined is the sum of their totals |
| `ShopServer.AddQuantityOk` | server.js:99-100 | definition, no contract: add-to-cart accepts a missing quantity (defaulted) or a number of at least 1; an explicit null compares as 0 and is refused |
| `ShopServer.AddQuantity` | server.js:99 | definition, no contract: the quantity added is 1 when the field is missing, otherwise the given number |
| `ShopServer.NonNegative` | server.js:129 | definition, no contract: the null-or-negative check of set-quantity and set-balance (line 155) passes only a present, non-null, non-negative number |
| `ShopServer.UsernameTaken` | server.js:61-62 | definition, no contract: some stored user already has the username |
| `ShopServer.Shop.Register` | server.js:56-70 | an empty username gives ValidationError and a taken one gives Conflict, both leaving the store unchanged; otherwise a user with a fresh id, balance 100.00 and an empty cart is added and no other user changes |
| `ShopServer.Shop.AddToCart` | server.js:97-122 | a null or below-1 quantity gives ValidationError, then a missing user or product gives NotFound, each leaving the store unchanged; otherwise only that user's cart changes, to `Added` with the quantity (default 1), and the reply is the new cart |
| `ShopServer.Shop.SetQuantity` | server.js:125-149 | a missing, null or negative quantity gives ValidationError, then a missing user or a product not in the cart gives NotFound, leaving the store unchanged; otherwise only that user's cart changes, to `QuantitySet` |
| `ShopServer.Shop.SetBalance` | server.js:152-167 | a missing, null or negative balance gives ValidationError, then a missing user gives NotFound; otherwise the stored balance becomes the given value, and the cart and every other user are untouched |
| `ShopServer.Shop.ViewCart` | server.js:170-190 | a missing user gives NotFound; otherwise the reply is the detailed cart, one entry per line, with totalAmount equal to the checkout total; nothing changes |
| `ShopServer.Shop.Checkout` | server.js:193-226 | a missing user gives NotFound, then an empty cart gives ValidationError "Cart empty", then balance < total gives InsufficientBalance, each leaving the store unchanged; on success the balance drops by exactly the total and stays ≥ 0, the cart is emptied, and the order lists the old cart's lines, with total equal to view-cart's totalAmount before checkout |

## Left out

- HTTP routing, body parsing, static file serving and the MongoDB connection
  and models (server.js:1-15, 35-36, 228-231) are framework glue. Responses
  are modelled as `Result` values. A `NotFound` error is sent with status 404
  and every other kind with 400. Those status codes and the success messages
  ("User registered", "Cart updated" and so on) are not part of the model.
- Product seeding goes through the database (server.js:39-51). Here it is the
  constant `Catalog.Products`.
- The `catch` branches that answer 500 report storage or driver failures. This
  includes a malformed identifier that `findById` cannot cast. Storage never
  fails in the model.
- Saving a document (`user.save()`) is the map update itself. The database's
  unique index on usernames is not modelled separately; with sequential
  requests the `findOne` check enforces the same uniqueness.
- The order identifier comes from `new Date().getTime()`. It is a parameter of
  `Checkout`, and nothing is claimed about it.
- Floating-point money and `toFixed(2)` are replaced by integer cents. The
  source's results differ from the model's where a float is not exact:
- ShopServer.Shop.Checkout: the source compares the stored balance with an
  unrounded float total (server.js:202-204). A cart of five pairs of jeans
  totals `49.99 * 5 = 249.95000000000002` as a double. Against a balance set
  to 249.95 (server.js:161) the source answers "Insufficient balance", though
  view-cart shows totalAmount 249.95. The model's checkout succeeds and leaves
  0. Three T-shirts and one pair of jeans against 109.96 behave the same way.
- Cart.AddedQuantity: quantities are doubles in the source, so above 2^53
  `cartItem.quantity += quantity` (server.js:112) is no longer exact. The
  model's quantities are unbounded integers and the lemma states exact
  addition.
- A JSON value that is not a whole number is not represented: a string, a
  fraction, or a balance with more than two decimals. In the source a string
  quantity passes `quantity < 1` and is then concatenated by `+=`.
- Concurrent requests are not modelled. Two overlapping checkouts against one
  user can both read the old balance; the model runs requests one at a time.
- The profile handler (server.js:73-84) and the product-list handler
  (server.js:87-94) are single lookups that involve no cart or balance logic.
  They are not modelled.
- public/js/app.js and public/js/cart.js are browser rendering, `fetch` calls
  and `localStorage`. They are not part of this model. This includes the
  client-side affordability check, which only enables or disables a button.
