/** The fixed product catalog the shop seeds at start-up.
    Money is kept in integer cents, so the two-decimal rounding the shop
    applies to every amount is the identity on every value of this model. */
module Catalog {

  /** Products are referred to by an opaque identifier. */
  type ProductId = nat

  /** An amount of money in cents (19.99 is 1999). */
  type Cents = int

  datatype Product = Product(name: string, price: Cents)

  /** The three sample products, as seeded when the store is empty. */
  const Products: map<ProductId, Product> :=
    map[1 := Product("T-shirt", 1999),
        2 := Product("Jeans", 4999),
        3 := Product("Sneakers", 8999)]

  /** The unit price of a catalog product. */
  function Price(pid: ProductId): (p: Cents)
    requires pid in Products
    ensures p > 0
  {
    Products[pid].price
  }
}
