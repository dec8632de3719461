/** Valuing a cart: the per-line totals and grand total that view-cart shows,
    the total that checkout charges, and the order snapshot checkout returns.
    All amounts are in cents, so rounding to two decimals changes nothing. */
module Ledger {
  import opened Catalog
  import opened Cart

  /** The price of one line: unit price times quantity. */
  function LineTotal(line: CartLine): Cents
    requires line.product in Products
  {
    Price(line.product) * line.quantity
  }

  /** The total checkout charges: the sum over the lines of price times quantity. */
  function CartTotal(cart: seq<CartLine>): Cents
    requires Priced(cart)
  {
    if cart == [] then 0 else LineTotal(cart[0]) + CartTotal(cart[1..])
  }

  /** One line of the view-cart reply, joined with the product's name and price. */
  datatype CartEntry = CartEntry(productId: ProductId, name: string, price: Cents, quantity: int, totalPrice: Cents)

  /** The view-cart reply: the detailed lines and their grand total. */
  datatype CartView = CartView(cart: seq<CartEntry>, totalAmount: Cents)

  /** One purchased line of an order: product, name, quantity and unit price. */
  datatype OrderLine = OrderLine(productId: ProductId, name: string, quantity: int, price: Cents)

  /** Each cart line, in order, joined with its catalog entry and line total. */
  function DetailedCart(cart: seq<CartLine>): (entries: seq<CartEntry>)
    requires Priced(cart)
    ensures |entries| == |cart|
    ensures forall i :: 0 <= i < |cart| ==>
      var p := Products[cart[i].product];
      entries[i] == CartEntry(cart[i].product, p.name, p.price, cart[i].quantity, p.price * cart[i].quantity)
  {
    if cart == [] then []
    else
      var line := cart[0];
      var p := Products[line.product];
      [CartEntry(line.product, p.name, p.price, line.quantity, LineTotal(line))] + DetailedCart(cart[1..])
  }

  /** The view-cart grand total: the sum of the entries' line totals. */
  function SumOfTotals(entries: seq<CartEntry>): Cents {
    if entries == [] then 0 else entries[0].totalPrice + SumOfTotals(entries[1..])
  }

  /** The view-cart reply for a cart. */
  function View(cart: seq<CartLine>): CartView
    requires Priced(cart)
  {
    var entries := DetailedCart(cart);
    CartView(entries, SumOfTotals(entries))
  }

  /** The order's product list: each cart line, in order, with its name and unit price. */
  function OrderLines(cart: seq<CartLine>): (lines: seq<OrderLine>)
    requires Priced(cart)
    ensures |lines| == |cart|
    ensures forall i :: 0 <= i < |cart| ==>
      lines[i] == OrderLine(cart[i].product, Products[cart[i].product].name, cart[i].quantity, Products[cart[i].product].price)
  {
    if cart == [] then []
    else
      var line := cart[0];
      [OrderLine(line.product, Products[line.product].name, line.quantity, Price(line.product))] + OrderLines(cart[1..])
  }

  // ---------------------------------------------------------------------
  // lemmas

  /** With whole cents the view total (a sum of line totals) and the checkout
      total (a sum of price times quantity) are the same number. */
  lemma {:induction false} ViewTotalIsCartTotal(cart: seq<CartLine>)
    requires Priced(cart)
    ensures View(cart).totalAmount == CartTotal(cart)
  {
    if cart != [] {
      ViewTotalIsCartTotal(cart[1..]);
      assert DetailedCart(cart)[1..] == DetailedCart(cart[1..]);
    }
  }

  /** Each order line and the view entry at the same position describe the same purchase. */
  lemma OrderMatchesView(cart: seq<CartLine>, i: nat)
    requires Priced(cart) && i < |cart|
    ensures OrderLines(cart)[i].productId == View(cart).cart[i].productId
    ensures OrderLines(cart)[i].name == View(cart).cart[i].name
    ensures OrderLines(cart)[i].quantity == View(cart).cart[i].quantity
    ensures OrderLines(cart)[i].price == View(cart).cart[i].price
  {
  }

  lemma {:induction false} CartTotalConcat(a: seq<CartLine>, b: seq<CartLine>)
    requires Priced(a) && Priced(b)
    ensures Priced(a + b)
    ensures CartTotal(a + b) == CartTotal(a) + CartTotal(b)
  {
    if a == [] {
      assert a + b == b;
    } else {
      assert (a + b)[1..] == a[1..] + b;
      CartTotalConcat(a[1..], b);
    }
  }

  /** A well-formed cart has a positive total unless it is empty. */
  lemma {:induction false} CartTotalPositive(cart: seq<CartLine>)
    requires WellFormed(cart)
    ensures CartTotal(cart) >= 0
    ensures cart != [] ==> CartTotal(cart) > 0
  {
    if cart != [] {
      assert WellFormed(cart[1..]) by {
        var tail := cart[1..];
        forall j | 0 <= j < |tail| ensures tail[j] == cart[j + 1] { }
      }
      CartTotalPositive(cart[1..]);
      var p := Price(cart[0].product);
      assert LineTotal(cart[0]) == p * cart[0].quantity;
      assert p * cart[0].quantity >= p by {
        assert cart[0].quantity >= 1;
      }
    }
  }

  /** Add-to-cart raises the cart's total by exactly the unit price times `q`. */
  lemma AddedTotal(cart: seq<CartLine>, pid: ProductId, q: int)
    requires Priced(cart) && pid in Products
    ensures Priced(Added(cart, pid, q))
    ensures CartTotal(Added(cart, pid, q)) == CartTotal(cart) + Price(pid) * q
  {
    var i := FirstIndex(cart, pid);
    if i < 0 {
      CartTotalConcat(cart, [CartLine(pid, q)]);
      assert [CartLine(pid, q)][1..] == [];
    } else {
      var line := cart[i].(quantity := cart[i].quantity + q);
      ReplaceLineTotal(cart, i, line);
      assert LineTotal(line) == LineTotal(cart[i]) + Price(pid) * q by {
        assert Price(pid) * (cart[i].quantity + q) == Price(pid) * cart[i].quantity + Price(pid) * q;
      }
    }
  }

  /** Set-quantity changes the cart's total by the unit price times the change
      in that line's quantity; quantity 0 takes the line's whole total off. */
  lemma QuantitySetTotal(cart: seq<CartLine>, pid: ProductId, q: int)
    requires Priced(cart) && InCart(cart, pid)
    ensures Priced(QuantitySet(cart, pid, q))
    ensures CartTotal(QuantitySet(cart, pid, q))
      == CartTotal(cart) + Price(pid) * (q - cart[FirstIndex(cart, pid)].quantity)
  {
    var i := FirstIndex(cart, pid);
    var p, was := Price(pid), cart[i].quantity;
    if q == 0 {
      RemoveLineTotal(cart, i);
      assert p * (q - was) == -(p * was);
    } else {
      ReplaceLineTotal(cart, i, cart[i].(quantity := q));
      assert p * (q - was) == p * q - p * was;
    }
  }

  /** A cart's total is the total before a line, plus that line's, plus the total after it. */
  lemma {:induction false} CartTotalAround(cart: seq<CartLine>, i: nat)
    requires Priced(cart) && i < |cart|
    ensures Priced(cart[..i]) && Priced(cart[i + 1..])
    ensures CartTotal(cart) == CartTotal(cart[..i]) + LineTotal(cart[i]) + CartTotal(cart[i + 1..])
  {
    var tail := cart[1..];
    assert Priced(tail) by {
      forall j | 0 <= j < |tail| ensures tail[j] == cart[j + 1] { }
    }
    if i == 0 {
      assert cart[..0] == [];
    } else {
      CartTotalAround(tail, i - 1);
      assert tail[..i - 1] == cart[..i][1..];
      assert tail[i - 1] == cart[i];
      assert tail[i..] == cart[i + 1..];
      var back := cart[i + 1..];
      assert Priced(back) by {
        forall j | 0 <= j < |back| ensures back[j] == tail[i + j] { }
      }
    }
  }

  /** Removing one line takes its line total off the cart's total. */
  lemma RemoveLineTotal(cart: seq<CartLine>, i: nat)
    requires Priced(cart) && i < |cart|
    ensures Priced(cart[..i] + cart[i + 1..])
    ensures CartTotal(cart[..i] + cart[i + 1..]) == CartTotal(cart) - LineTotal(cart[i])
  {
    CartTotalAround(cart, i);
    CartTotalConcat(cart[..i], cart[i + 1..]);
  }

  /** Replacing one line changes the total by the difference of the two line totals. */
  lemma ReplaceLineTotal(cart: seq<CartLine>, i: nat, line: CartLine)
    requires Priced(cart) && i < |cart| && line.product in Products
    ensures Priced(cart[i := line])
    ensures CartTotal(cart[i := line]) == CartTotal(cart) - LineTotal(cart[i]) + LineTotal(line)
  {
    var after := cart[i := line];
    CartTotalAround(cart, i);
    assert after[..i] == cart[..i] && after[i + 1..] == cart[i + 1..];
    CartTotalAround(after, i);
  }
}
