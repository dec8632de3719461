/** A user's cart: an ordered list of lines, each a product and a quantity,
    and the two edits the shop makes to it (add-to-cart and set-quantity). */
module Cart {
  import opened Catalog

  /** One cart line (the cart item schema: a product reference and a quantity). */
  datatype CartLine = CartLine(product: ProductId, quantity: int)

  predicate InCart(cart: seq<CartLine>, pid: ProductId) {
    exists i :: 0 <= i < |cart| && cart[i].product == pid
  }

  /** Every line refers to a catalog product. */
  predicate Priced(cart: seq<CartLine>) {
    forall i :: 0 <= i < |cart| ==> cart[i].product in Products
  }

  /** The cart invariant: lines refer to catalog products, every quantity is
      at least 1, and no product has two lines. */
  predicate WellFormed(cart: seq<CartLine>) {
    && Priced(cart)
    && (forall i :: 0 <= i < |cart| ==> cart[i].quantity >= 1)
    && (forall i, j :: 0 <= i < j < |cart| ==> cart[i].product != cart[j].product)
  }

  /** The position of the first line for `pid`, or -1 when there is none
      (what `find` and `findIndex` on the cart look up). */
  function FirstIndex(cart: seq<CartLine>, pid: ProductId): (r: int)
    ensures -1 <= r < |cart|
    ensures r == -1 <==> !InCart(cart, pid)
    ensures r >= 0 ==> cart[r].product == pid
    ensures r >= 0 ==> forall j :: 0 <= j < r ==> cart[j].product != pid
  {
    if cart == [] then -1
    else if cart[0].product == pid then 0
    else
      var k := FirstIndex(cart[1..], pid);
      assert forall j :: 0 <= j < |cart[1..]| ==> cart[1..][j] == cart[j + 1];
      if k < 0 then -1 else k + 1
  }

  /** How many of `pid` the cart holds, summed over all its lines: the
      reference meaning of a cart against which the edits are stated. */
  function QuantityOf(cart: seq<CartLine>, pid: ProductId): int {
    if cart == [] then 0
    else (if cart[0].product == pid then cart[0].quantity else 0) + QuantityOf(cart[1..], pid)
  }

  /** The cart with every line for `pid` dropped, order kept. */
  function Without(cart: seq<CartLine>, pid: ProductId): seq<CartLine> {
    if cart == [] then []
    else if cart[0].product == pid then Without(cart[1..], pid)
    else [cart[0]] + Without(cart[1..], pid)
  }

  /** The cart after add-to-cart of `q` units of `pid`: the first line for
      `pid` grows by `q`, or, when there is none, a new line goes at the end. */
  function Added(cart: seq<CartLine>, pid: ProductId, q: int): seq<CartLine> {
    var i := FirstIndex(cart, pid);
    if i < 0 then cart + [CartLine(pid, q)]
    else cart[i := cart[i].(quantity := cart[i].quantity + q)]
  }

  /** The cart after set-quantity of `pid` to `q`: quantity 0 removes the
      first line for `pid`, any other quantity replaces that line's quantity. */
  function QuantitySet(cart: seq<CartLine>, pid: ProductId, q: int): seq<CartLine>
    requires InCart(cart, pid)
  {
    var i := FirstIndex(cart, pid);
    if q == 0 then cart[..i] + cart[i + 1..]
    else cart[i := cart[i].(quantity := q)]
  }

  // ---------------------------------------------------------------------
  // QuantityOf over the shapes the edits produce

  lemma {:induction false} QuantityOfConcat(a: seq<CartLine>, b: seq<CartLine>, pid: ProductId)
    ensures QuantityOf(a + b, pid) == QuantityOf(a, pid) + QuantityOf(b, pid)
  {
    if a == [] {
      assert a + b == b;
    } else {
      assert (a + b)[1..] == a[1..] + b;
      QuantityOfConcat(a[1..], b, pid);
    }
  }

  /** In a well-formed cart the quantity of a product is the quantity of its one line. */
  lemma {:induction false} QuantityOfLine(cart: seq<CartLine>, i: nat)
    requires WellFormed(cart) && i < |cart|
    ensures QuantityOf(cart, cart[i].product) == cart[i].quantity
  {
    var pid := cart[i].product;
    SplitAt(cart, i);
    assert cart == cart[..i] + cart[i..];
    QuantityOfConcat(cart[..i], cart[i..], pid);
    assert cart[i..] == [cart[i]] + cart[i + 1..];
    QuantityOfConcat([cart[i]], cart[i + 1..], pid);
    assert [cart[i]][1..] == [];
    QuantityOfAbsent(cart[..i], pid);
    QuantityOfAbsent(cart[i + 1..], pid);
  }

  lemma {:induction false} QuantityOfAbsent(cart: seq<CartLine>, pid: ProductId)
    requires !InCart(cart, pid)
    ensures QuantityOf(cart, pid) == 0
  {
    if cart != [] {
      assert cart[0].product != pid;
      assert !InCart(cart[1..], pid) by {
        forall j | 0 <= j < |cart[1..]| ensures cart[1..][j].product != pid {
          assert cart[1..][j] == cart[j + 1];
        }
      }
      QuantityOfAbsent(cart[1..], pid);
    }
  }

  /** A well-formed cart splits around any line into two parts without that product. */
  lemma SplitAt(cart: seq<CartLine>, i: nat)
    requires WellFormed(cart) && i < |cart|
    ensures cart == cart[..i] + [cart[i]] + cart[i + 1..]
    ensures !InCart(cart[..i], cart[i].product)
    ensures !InCart(cart[i + 1..], cart[i].product)
  {
  }

  /** The first index is determined by the line it finds and the lines before it. */
  lemma FirstIndexAt(cart: seq<CartLine>, pid: ProductId, i: nat)
    requires i < |cart| && cart[i].product == pid
    requires forall j :: 0 <= j < i ==> cart[j].product != pid
    ensures FirstIndex(cart, pid) == i
  {
  }

  // ---------------------------------------------------------------------
  // add-to-cart

  /** Add-to-cart keeps the cart invariant. */
  lemma AddedWellFormed(cart: seq<CartLine>, pid: ProductId, q: int)
    requires WellFormed(cart) && pid in Products && q >= 1
    ensures WellFormed(Added(cart, pid, q))
  {
  }

  /** Add-to-cart raises the quantity of `pid` by exactly `q` and changes no other product's. */
  lemma AddedQuantity(cart: seq<CartLine>, pid: ProductId, q: int, p: ProductId)
    ensures QuantityOf(Added(cart, pid, q), p) == QuantityOf(cart, p) + (if p == pid then q else 0)
  {
    var i := FirstIndex(cart, pid);
    if i < 0 {
      QuantityOfConcat(cart, [CartLine(pid, q)], p);
      assert [CartLine(pid, q)][1..] == [];
    } else {
      var line := cart[i].(quantity := cart[i].quantity + q);
      assert cart == cart[..i] + [cart[i]] + cart[i + 1..];
      assert cart[i := line] == cart[..i] + [line] + cart[i + 1..];
      QuantityOfConcat(cart[..i] + [cart[i]], cart[i + 1..], p);
      QuantityOfConcat(cart[..i], [cart[i]], p);
      QuantityOfConcat(cart[..i] + [line], cart[i + 1..], p);
      QuantityOfConcat(cart[..i], [line], p);
      assert [line][1..] == [] && [cart[i]][1..] == [];
    }
  }

  /** The cart grows by one line exactly when `pid` had no line, and otherwise
      keeps its length; every line for another product stays where it was. */
  lemma AddedShape(cart: seq<CartLine>, pid: ProductId, q: int)
    ensures |Added(cart, pid, q)| == if InCart(cart, pid) then |cart| else |cart| + 1
    ensures forall j :: 0 <= j < |cart| && cart[j].product != pid ==> Added(cart, pid, q)[j] == cart[j]
    ensures !InCart(cart, pid) ==> Added(cart, pid, q)[|cart|] == CartLine(pid, q)
  {
  }

  /** Adding `a` then `b` units of one product is adding `a + b` units once:
      the line is merged, never duplicated. */
  lemma AddedTwice(cart: seq<CartLine>, pid: ProductId, a: int, b: int)
    ensures Added(Added(cart, pid, a), pid, b) == Added(cart, pid, a + b)
  {
    var i := FirstIndex(cart, pid);
    var once := Added(cart, pid, a);
    if i < 0 {
      FirstIndexAt(once, pid, |cart|);
    } else {
      FirstIndexAt(once, pid, i);
    }
  }

  // ---------------------------------------------------------------------
  // set-quantity

  /** Set-quantity with a non-negative quantity keeps the cart invariant. */
  lemma QuantitySetWellFormed(cart: seq<CartLine>, pid: ProductId, q: int)
    requires WellFormed(cart) && InCart(cart, pid) && q >= 0
    ensures WellFormed(QuantitySet(cart, pid, q))
  {
    var i := FirstIndex(cart, pid);
    if q == 0 {
      var r := cart[..i] + cart[i + 1..];
      forall j | 0 <= j < |r|
        ensures r[j] == cart[if j < i then j else j + 1]
      {
      }
    }
  }

  /** Set-quantity makes the quantity of `pid` exactly `q` (0 when the line goes)
      and leaves every other product's quantity alone. */
  lemma QuantitySetQuantity(cart: seq<CartLine>, pid: ProductId, q: int, p: ProductId)
    requires WellFormed(cart) && InCart(cart, pid)
    ensures QuantityOf(QuantitySet(cart, pid, q), p) == if p == pid then q else QuantityOf(cart, p)
  {
    var i := FirstIndex(cart, pid);
    SplitAt(cart, i);
    QuantityOfConcat(cart[..i] + [cart[i]], cart[i + 1..], p);
    QuantityOfConcat(cart[..i], [cart[i]], p);
    assert [cart[i]][1..] == [];
    if p == pid {
      QuantityOfAbsent(cart[..i], pid);
      QuantityOfAbsent(cart[i + 1..], pid);
    }
    if q == 0 {
      QuantityOfConcat(cart[..i], cart[i + 1..], p);
    } else {
      var line := cart[i].(quantity := q);
      assert cart[i := line] == cart[..i] + [line] + cart[i + 1..];
      QuantityOfConcat(cart[..i] + [line], cart[i + 1..], p);
      QuantityOfConcat(cart[..i], [line], p);
      assert [line][1..] == [];
    }
  }

  /** Quantity 0 removes exactly the line for `pid`: the result is the cart
      with that product filtered out, the other lines in their order. */
  lemma QuantitySetRemoves(cart: seq<CartLine>, pid: ProductId)
    requires WellFormed(cart) && InCart(cart, pid)
    ensures QuantitySet(cart, pid, 0) == Without(cart, pid)
    ensures |QuantitySet(cart, pid, 0)| == |cart| - 1
    ensures !InCart(QuantitySet(cart, pid, 0), pid)
  {
    var i := FirstIndex(cart, pid);
    SplitAt(cart, i);
    WithoutConcat(cart[..i] + [cart[i]], cart[i + 1..], pid);
    WithoutConcat(cart[..i], [cart[i]], pid);
    WithoutAbsent(cart[..i], pid);
    WithoutAbsent(cart[i + 1..], pid);
    assert Without([cart[i]], pid) == [] by {
      assert [cart[i]][1..] == [];
    }
    assert cart[..i] + [] == cart[..i];
  }

  /** A positive quantity replaces, not increments, the line for `pid`; every
      other line keeps its value and position. */
  lemma QuantitySetReplaces(cart: seq<CartLine>, pid: ProductId, q: int)
    requires InCart(cart, pid) && q != 0
    ensures |QuantitySet(cart, pid, q)| == |cart|
    ensures QuantitySet(cart, pid, q)[FirstIndex(cart, pid)] == CartLine(pid, q)
    ensures forall j :: 0 <= j < |cart| && j != FirstIndex(cart, pid) ==> QuantitySet(cart, pid, q)[j] == cart[j]
  {
  }

  lemma {:induction false} WithoutConcat(a: seq<CartLine>, b: seq<CartLine>, pid: ProductId)
    ensures Without(a + b, pid) == Without(a, pid) + Without(b, pid)
  {
    if a == [] {
      assert a + b == b;
    } else {
      assert (a + b)[1..] == a[1..] + b;
      WithoutConcat(a[1..], b, pid);
    }
  }

  lemma {:induction false} WithoutAbsent(cart: seq<CartLine>, pid: ProductId)
    requires !InCart(cart, pid)
    ensures Without(cart, pid) == cart
  {
    if cart != [] {
      assert cart[0].product != pid;
      assert !InCart(cart[1..], pid) by {
        forall j | 0 <= j < |cart[1..]| ensures cart[1..][j].product != pid {
          assert cart[1..][j] == cart[j + 1];
        }
      }
      WithoutAbsent(cart[1..], pid);
      assert cart == [cart[0]] + cart[1..];
    }
  }
}
