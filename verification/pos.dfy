/** The point-of-sale page: a product search and a sale cart whose lines are
    keyed by product id, with add, change-quantity, remove and complete-sale
    commands and the derived subtotal, 16% IVA and total. Each command is a
    function from the old cart to the new one. */
module Pos {
  import opened Text
  import opened Listing

  datatype Product = Product(id: string, code: string, name: string, price: real, stock: int, category: string)

  /** One cart line: `id` repeats the product's id, `total` is the line amount. */
  datatype CartItem = CartItem(id: string, product: Product, quantity: int, total: real)

  type Cart = seq<CartItem>

  /** IVA, 16%. */
  const TaxRate: real := 16.0 / 100.0

  function LineTotal(item: CartItem): real { item.total }

  /** What a line should cost: its quantity times its product's price. */
  function ListPrice(item: CartItem): real { item.quantity as real * item.product.price }

  predicate InCart(cart: Cart, id: string)
  {
    exists i :: 0 <= i < |cart| && cart[i].id == id
  }

  /** Position of the line for `id` (`cart.find(item => item.id === id)`). */
  function IndexOf(cart: Cart, id: string): (k: nat)
    requires InCart(cart, id)
    ensures k < |cart| && cart[k].id == id
    ensures forall m :: 0 <= m < k ==> cart[m].id != id
  {
    if cart[0].id == id then 0
    else
      assert InCart(cart[1..], id) by {
        var i :| 0 <= i < |cart| && cart[i].id == id;
        assert cart[1..][i - 1].id == id;
      }
      1 + IndexOf(cart[1..], id)
  }

  /** How many units of product `id` the cart holds (0 when it has no line). */
  function QuantityOf(cart: Cart, id: string): int
  {
    if InCart(cart, id) then cart[IndexOf(cart, id)].quantity else 0
  }

  /** The amount of the line for `id` (0 when it has no line). */
  function LineAmount(cart: Cart, id: string): real
  {
    if InCart(cart, id) then cart[IndexOf(cart, id)].total else 0.0
  }

  predicate DistinctIds(cart: Cart)
  {
    forall i, j :: 0 <= i < j < |cart| ==> cart[i].id != cart[j].id
  }

  predicate WellFormedLine(item: CartItem)
  {
    && item.id == item.product.id
    && item.quantity >= 1
    && item.total == ListPrice(item)
  }

  /** The cart invariant: one line per product, positive quantities, and every
      line amount equal to quantity times price. */
  predicate CartOk(cart: Cart)
  {
    && DistinctIds(cart)
    && forall i :: 0 <= i < |cart| ==> WellFormedLine(cart[i])
  }

  /** Products come from one catalogue: the product added is the very record
      already held by the line with its id, if there is one. */
  predicate AgreesWith(cart: Cart, product: Product)
  {
    forall i :: 0 <= i < |cart| && cart[i].id == product.id ==> cart[i].product == product
  }

  function NewLine(product: Product): CartItem
  {
    CartItem(product.id, product, 1, product.price)
  }

  /** `addToCart`: one more unit of `product`. The line amount is recomputed
      from the price of the product passed in, while the line keeps its
      stored product record. */
  function AddToCart(cart: Cart, product: Product): (r: Cart)
    ensures !InCart(cart, product.id) ==>
              |r| == |cart| + 1 && r[..|cart|] == cart && r[|cart|] == NewLine(product)
    ensures InCart(cart, product.id) ==>
              && |r| == |cart|
              && forall i :: 0 <= i < |cart| ==>
                   && r[i].id == cart[i].id
                   && r[i].product == cart[i].product
                   && (cart[i].id != product.id ==> r[i] == cart[i])
                   && (cart[i].id == product.id ==>
                         r[i].quantity == cart[i].quantity + 1 &&
                         r[i].total == r[i].quantity as real * product.price)
  {
    if InCart(cart, product.id) then
      seq(|cart|, i requires 0 <= i < |cart| =>
        if cart[i].id == product.id
        then cart[i].(quantity := cart[i].quantity + 1,
                      total := (cart[i].quantity + 1) as real * product.price)
        else cart[i])
    else
      cart + [NewLine(product)]
  }

  /** `removeFromCart`: drop the line for `id`, if any. */
  function RemoveFromCart(cart: Cart, id: string): (r: Cart)
    ensures forall item :: item in r <==> item in cart && item.id != id
    ensures IsSubseq(r, cart)
    ensures !InCart(r, id)
    ensures !InCart(cart, id) ==> r == cart
    ensures |r| == Count(cart, (item: CartItem) => item.id != id)
  {
    var r := Filter(cart, (item: CartItem) => item.id != id);
    assert forall i :: 0 <= i < |r| ==> r[i].id != id by {
      forall i | 0 <= i < |r|
        ensures r[i].id != id
      {
        assert r[i] in r;
      }
    }
    r
  }

  /** `updateQuantity`: a quantity of zero or less removes the line; any other
      quantity replaces the line's quantity and recomputes its amount from the
      line's own product. */
  function UpdateQuantity(cart: Cart, id: string, n: int): (r: Cart)
    ensures n <= 0 ==> r == RemoveFromCart(cart, id)
    ensures n > 0 ==>
              && |r| == |cart|
              && forall i :: 0 <= i < |cart| ==>
                   && r[i].id == cart[i].id
                   && r[i].product == cart[i].product
                   && (cart[i].id != id ==> r[i] == cart[i])
                   && (cart[i].id == id ==>
                         r[i].quantity == n && r[i].total == n as real * cart[i].product.price)
    ensures n > 0 && !InCart(cart, id) ==> r == cart
  {
    if n <= 0 then RemoveFromCart(cart, id)
    else
      seq(|cart|, i requires 0 <= i < |cart| =>
        if cart[i].id == id
        then cart[i].(quantity := n, total := n as real * cart[i].product.price)
        else cart[i])
  }

  function Subtotal(cart: Cart): real
  {
    SumOf(cart, LineTotal)
  }

  datatype Totals = Totals(subtotal: real, tax: real, total: real)

  /** `subtotal`, `tax` and `total` of the cart. */
  function CartTotals(cart: Cart): (t: Totals)
    ensures t.subtotal == Subtotal(cart)
    ensures t.tax == t.subtotal * 16.0 / 100.0
    ensures t.total == t.subtotal * 116.0 / 100.0
    ensures cart == [] ==> t == Totals(0.0, 0.0, 0.0)
  {
    var subtotal := Subtotal(cart);
    var tax := subtotal * TaxRate;
    Totals(subtotal, tax, subtotal + tax)
  }

  /** The page state the sale commands touch. */
  datatype PosState = PosState(cart: Cart, search: string)

  /** The notice shown after "complete sale". */
  datatype SaleNotice = EmptyCart | SaleCompleted(amount: real)

  /** `completeSale`: refused on an empty cart; otherwise reports the total
      and starts a fresh sale with an empty cart and an empty search. */
  function CompleteSale(s: PosState): (r: (PosState, SaleNotice))
    ensures s.cart == [] ==> r.0 == s && r.1 == EmptyCart
    ensures s.cart != [] ==>
              && r.0.cart == [] && r.0.search == ""
              && r.1 == SaleCompleted(Subtotal(s.cart) * 116.0 / 100.0)
  {
    if |s.cart| == 0 then (s, EmptyCart)
    else (PosState([], ""), SaleCompleted(CartTotals(s.cart).total))
  }

  predicate ProductMatches(product: Product, term: string)
  {
    FoldContains(product.name, term) || FoldContains(product.code, term)
  }

  /** `filteredProducts`: the catalogue entries whose name or code contains the
      term, ignoring ASCII case, in catalogue order. */
  function FilterProducts(products: seq<Product>, term: string): (r: seq<Product>)
    ensures forall p :: p in r <==> p in products && ProductMatches(p, term)
    ensures IsSubseq(r, products)
    ensures (forall p :: p in products ==> ProductMatches(p, term)) ==> r == products
    ensures |r| == Count(products, (p: Product) => ProductMatches(p, term))
  {
    Filter(products, (p: Product) => ProductMatches(p, term))
  }

  // ---------------------------------------------------------------------------
  // Properties of the commands

  /** An empty search lists the whole catalogue. */
  lemma EmptySearchListsAllProducts(products: seq<Product>)
    ensures FilterProducts(products, "") == products
  {
    forall p | p in products
      ensures ProductMatches(p, "")
    {
      FoldContainsEmpty(p.name);
    }
  }

  lemma DistinctLineIndex(cart: Cart, i: int)
    requires DistinctIds(cart) && 0 <= i < |cart|
    ensures InCart(cart, cart[i].id) && IndexOf(cart, cart[i].id) == i
  {
  }

  /** Adding keeps the cart invariant. */
  lemma AddPreservesInvariant(cart: Cart, product: Product)
    requires CartOk(cart) && AgreesWith(cart, product)
    ensures CartOk(AddToCart(cart, product))
  {
    var r := AddToCart(cart, product);
    if !InCart(cart, product.id) {
      forall i, j | 0 <= i < j < |r|
        ensures r[i].id != r[j].id
      {
        if j == |cart| {
          assert r[i] == cart[i];
        }
      }
    }
  }

  /** Changing a quantity keeps the cart invariant. */
  lemma UpdatePreservesInvariant(cart: Cart, id: string, n: int)
    requires CartOk(cart)
    ensures CartOk(UpdateQuantity(cart, id, n))
  {
    if n <= 0 {
      RemovePreservesInvariant(cart, id);
    } else {
      var r := UpdateQuantity(cart, id, n);
      assert forall i :: 0 <= i < |r| ==> r[i].id == cart[i].id && r[i].product == cart[i].product;
      forall i | 0 <= i < |r|
        ensures WellFormedLine(r[i])
      {
      }
    }
  }

  /** Removing keeps the cart invariant. */
  lemma RemovePreservesInvariant(cart: Cart, id: string)
    requires CartOk(cart)
    ensures CartOk(RemoveFromCart(cart, id))
  {
    var r := RemoveFromCart(cart, id);
    assert NoDuplicates(cart);
    FilterKeepsNoDuplicates(cart, (item: CartItem) => item.id != id);
    assert NoDuplicates(r);
    forall i, j | 0 <= i < j < |r|
      ensures r[i].id != r[j].id
    {
      assert r[i] in cart && r[j] in cart;
      var a :| 0 <= a < |cart| && cart[a] == r[i];
      var b :| 0 <= b < |cart| && cart[b] == r[j];
      if a != b {
        assert cart[a].id != cart[b].id;
      }
    }
    forall i | 0 <= i < |r|
      ensures WellFormedLine(r[i])
    {
      assert r[i] in cart;
    }
  }

  lemma {:induction false} FilterKeepsNoDuplicates<T(!new)>(xs: seq<T>, keep: T -> bool)
    requires NoDuplicates(xs)
    ensures NoDuplicates(Filter(xs, keep))
  {
    if |xs| > 0 {
      assert NoDuplicates(xs[1..]);
      FilterKeepsNoDuplicates(xs[1..], keep);
      assert xs[0] !in xs[1..];
    }
  }

  /** Adding a product, new or already in the cart, raises the subtotal by
      exactly its price. */
  lemma AddRaisesSubtotal(cart: Cart, product: Product)
    requires CartOk(cart) && AgreesWith(cart, product)
    ensures Subtotal(AddToCart(cart, product)) == Subtotal(cart) + product.price
  {
    var r := AddToCart(cart, product);
    if InCart(cart, product.id) {
      var k := IndexOf(cart, product.id);
      assert r == cart[k := r[k]];
      SumOfUpdate(cart, k, r[k], LineTotal);
      var q := cart[k].quantity as real;
      assert cart[k].total == q * product.price;
      assert r[k].total == (q + 1.0) * product.price;
    } else {
      assert r == cart + [NewLine(product)];
      SumOfAppend(cart, [NewLine(product)], LineTotal);
    }
  }

  /** Removing a line lowers the subtotal by exactly that line's amount. */
  lemma {:induction false} RemoveLowersSubtotal(cart: Cart, id: string)
    requires DistinctIds(cart)
    ensures Subtotal(RemoveFromCart(cart, id)) == Subtotal(cart) - LineAmount(cart, id)
  {
    if |cart| > 0 {
      var rest := cart[1..];
      assert DistinctIds(rest);
      if cart[0].id == id {
        assert !InCart(rest, id);
        assert RemoveFromCart(cart, id) == RemoveFromCart(rest, id);
        assert IndexOf(cart, id) == 0;
      } else {
        RemoveLowersSubtotal(rest, id);
        assert RemoveFromCart(cart, id) == [cart[0]] + RemoveFromCart(rest, id);
        assert InCart(cart, id) <==> InCart(rest, id) by {
          if InCart(cart, id) {
            var i :| 0 <= i < |cart| && cart[i].id == id;
            assert rest[i - 1].id == id;
          }
        }
        if InCart(cart, id) {
          assert IndexOf(cart, id) == 1 + IndexOf(rest, id);
        }
      }
    }
  }

  /** Viewed as quantities per product, adding puts one more unit of that
      product in the cart and leaves every other product alone. */
  lemma AddCountsOneUnit(cart: Cart, product: Product, other: string)
    requires CartOk(cart)
    ensures QuantityOf(AddToCart(cart, product), product.id) == QuantityOf(cart, product.id) + 1
    ensures other != product.id ==> QuantityOf(AddToCart(cart, product), other) == QuantityOf(cart, other)
  {
    var r := AddToCart(cart, product);
    if InCart(cart, product.id) {
      var k := IndexOf(cart, product.id);
      assert r[k].id == product.id;
      assert DistinctIds(r);
      DistinctLineIndex(r, k);
      if other != product.id && InCart(cart, other) {
        var j := IndexOf(cart, other);
        assert r[j].id == other;
        DistinctLineIndex(r, j);
      }
      if other != product.id && InCart(r, other) {
        var j := IndexOf(r, other);
        assert cart[j].id == other;
      }
    } else {
      assert r[|cart|].id == product.id;
      assert forall m :: 0 <= m < |cart| ==> r[m] == cart[m] && cart[m].id != product.id;
      assert IndexOf(r, product.id) == |cart|;
      if other != product.id && InCart(cart, other) {
        var j := IndexOf(cart, other);
        assert r[j] == cart[j];
        assert IndexOf(r, other) == j;
      }
      if other != product.id && InCart(r, other) {
        var j := IndexOf(r, other);
        assert j < |cart| && cart[j] == r[j];
      }
    }
  }

  /** Viewed as quantities per product, a positive quantity is set exactly on a
      product already in the cart, a non-positive one takes the product out,
      and every other product keeps its quantity. */
  lemma UpdateSetsQuantity(cart: Cart, id: string, n: int, other: string)
    requires CartOk(cart)
    ensures QuantityOf(UpdateQuantity(cart, id, n), id) ==
              (if n > 0 && InCart(cart, id) then n else 0)
    ensures other != id ==> QuantityOf(UpdateQuantity(cart, id, n), other) == QuantityOf(cart, other)
  {
    if n <= 0 {
      RemoveClearsQuantity(cart, id, other);
    } else {
      var r := UpdateQuantity(cart, id, n);
      assert DistinctIds(r);
      if InCart(cart, id) {
        var k := IndexOf(cart, id);
        assert r[k].id == id;
        DistinctLineIndex(r, k);
      }
      if InCart(r, id) {
        var k := IndexOf(r, id);
        assert cart[k].id == id;
      }
      if other != id && InCart(cart, other) {
        var j := IndexOf(cart, other);
        assert r[j].id == other;
        DistinctLineIndex(r, j);
      }
      if other != id && InCart(r, other) {
        var j := IndexOf(r, other);
        assert cart[j].id == other;
      }
    }
  }

  /** Viewed as quantities per product, removing takes the product out and
      leaves every other product alone. */
  lemma RemoveClearsQuantity(cart: Cart, id: string, other: string)
    requires CartOk(cart)
    ensures QuantityOf(RemoveFromCart(cart, id), id) == 0
    ensures other != id ==> QuantityOf(RemoveFromCart(cart, id), other) == QuantityOf(cart, other)
  {
    var r := RemoveFromCart(cart, id);
    if other != id {
      if InCart(cart, other) {
        var j := IndexOf(cart, other);
        assert cart[j] in r;
        var a :| 0 <= a < |r| && r[a] == cart[j];
        assert InCart(r, other);
      }
      if InCart(r, other) {
        var j := IndexOf(r, other);
        assert r[j] in cart;
        var a :| 0 <= a < |cart| && cart[a] == r[j];
        DistinctLineIndex(cart, a);
      }
    }
  }

  /** Pressing "minus" on a line of quantity 1 removes the line. */
  lemma DecrementLastUnitRemovesLine(cart: Cart, i: int)
    requires 0 <= i < |cart| && cart[i].quantity == 1
    ensures UpdateQuantity(cart, cart[i].id, cart[i].quantity - 1) == RemoveFromCart(cart, cart[i].id)
    ensures !InCart(UpdateQuantity(cart, cart[i].id, cart[i].quantity - 1), cart[i].id)
  {
  }

  /** On a well-formed cart the subtotal is the sum of quantity times price. */
  lemma SubtotalIsSumOfListPrices(cart: Cart)
    requires CartOk(cart)
    ensures Subtotal(cart) == SumOf(cart, ListPrice)
  {
    SumOfCongruent(cart, LineTotal, ListPrice);
  }

  /** With non-negative prices the totals are ordered: 0 <= tax <= subtotal <= total. */
  lemma TotalsOrdered(cart: Cart)
    requires CartOk(cart)
    requires forall i :: 0 <= i < |cart| ==> cart[i].product.price >= 0.0
    ensures 0.0 <= CartTotals(cart).tax <= CartTotals(cart).subtotal <= CartTotals(cart).total
  {
    forall item | item in cart
      ensures LineTotal(item) >= 0.0
    {
    }
    SumOfNonNegative(cart, LineTotal);
  }

  /** After a completed sale a second "complete sale" is refused. */
  lemma CompleteSaleTwiceRefused(s: PosState)
    requires s.cart != []
    ensures CompleteSale(CompleteSale(s).0).1 == EmptyCart
  {
  }
}
