/** Clients of the shop that follow one user through the handlers and show
    what their contracts let a caller conclude. */
module ShopScenario {
  import opened Catalog
  import opened Cart
  import opened Ledger
  import opened ShopServer

  /** A second registration under a taken name is refused. */
  method RegisterTwice()
  {
    var shop := new Shop();
    var reg := shop.Register("ann");
    assert !UsernameTaken(map[], "ann");
    assert reg.Ok? && reg.value.balance == 10000;
    assert shop.users[reg.value.userId].cart == [];
    var again := shop.Register("ann");
    assert UsernameTaken(shop.users, "ann");
    assert again == Err(Conflict("Username exists"));
  }

  /** Two T-shirts then three more make one line of five. */
  method MergeLines(shop: Shop, ann: UserId)
    requires shop.Valid() && ann in shop.users && shop.users[ann].cart == []
    modifies shop
  {
    var c1 := shop.AddToCart(ann, 1, Given(2));
    assert [] + [CartLine(1, 2)] == [CartLine(1, 2)];
    assert c1 == Ok([CartLine(1, 2)]);
    var c2 := shop.AddToCart(ann, 1, Given(3));
    assert FirstIndex([CartLine(1, 2)], 1) == 0;
    assert [CartLine(1, 2)][0 := CartLine(1, 5)] == [CartLine(1, 5)];
    assert c2 == Ok([CartLine(1, 5)]);
  }

  /** An unknown product and a zero quantity are refused and change nothing. */
  method RefusedAdds(shop: Shop, ann: UserId)
    requires shop.Valid() && ann in shop.users && shop.users[ann].cart == [CartLine(1, 5)]
    modifies shop
  {
    var bad := shop.AddToCart(ann, 7, Absent);
    assert bad == Err(NotFound("Product not found"));
    var zero := shop.AddToCart(ann, 2, Given(0));
    assert zero.Err? && shop.users[ann].cart == [CartLine(1, 5)];
  }

  /** A T-shirt and a pair of jeans against a balance of 100.00: the total is
      69.98 and 30.02 remains; a second checkout finds the cart empty. */
  method CheckoutExample(shop: Shop, ann: UserId)
    requires shop.Valid() && ann in shop.users
    requires shop.users[ann].cart == [CartLine(1, 1), CartLine(2, 1)]
    requires shop.users[ann].balance == 10000
    modifies shop
  {
    var view := shop.ViewCart(ann);
    assert CartTotal([CartLine(1, 1), CartLine(2, 1)]) == 6998;
    assert view.Ok? && view.value.totalAmount == 6998;
    var receipt := shop.Checkout(ann, 42);
    assert receipt.Ok? && receipt.value.remainingBalance == 3002;
    assert receipt.value.order.total == 6998;
    assert shop.users[ann].cart == [];
    var empty := shop.Checkout(ann, 43);
    assert empty == Err(ValidationError("Cart empty"));
  }
}
