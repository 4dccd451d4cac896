/** Cart reconciliation and aggregation of the storefront client.
    A cart entry {productId, qty} returned by the backend is joined against the
    product catalog to give enriched line items; the cart's value and its number
    of products are computed from those line items.
    Money is kept exact: `cost` and `qty` are naturals (minor units), where the
    original works on JavaScript numbers. */
module Cart {

  datatype Option<T> = None | Some(value: T)

  /** A product of the catalog. `id` is the backend's `_id`. */
  datatype Product = Product(
    id: string,
    name: string,
    category: string,
    cost: nat,
    rating: int,
    image: string)

  /** An entry of the cart as the backend stores it. */
  datatype CartEntry = CartEntry(productId: string, qty: nat)

  /** A line item shown in the cart: the entry's quantity with the product's data. */
  datatype CartItem = CartItem(
    name: string,
    qty: nat,
    cost: nat,
    category: string,
    rating: int,
    image: string,
    id: string)

  /** True when some product of the catalog carries `id`. */
  ghost predicate InCatalog(products: seq<Product>, id: string) {
    exists j :: 0 <= j < |products| && products[j].id == id
  }

  /** Index of the first product whose id is `id`, or |products| when there is none. */
  function FirstMatch(products: seq<Product>, id: string): (i: nat)
    ensures i <= |products|
    ensures i < |products| ==> products[i].id == id
    ensures forall j :: 0 <= j < i ==> products[j].id != id
  {
    if products == [] then 0
    else if products[0].id == id then 0
    else 1 + FirstMatch(products[1..], id)
  }

  /** The catalog lookup `productsData.find(p => p._id === productId)`:
      the first product with that id, if any. */
  function FindProduct(products: seq<Product>, id: string): (r: Option<Product>)
    ensures r.None? <==> !InCatalog(products, id)
    ensures r.Some? ==> r.value.id == id
    ensures r.Some? ==> exists i :: 0 <= i < |products| && products[i] == r.value &&
                                    forall j :: 0 <= j < i ==> products[j].id != id
  {
    var i := FirstMatch(products, id);
    if i < |products| then Some(products[i]) else None
  }

  /** The line item built from a cart entry and its product. */
  function LineItem(entry: CartEntry, product: Product): CartItem {
    CartItem(product.name, entry.qty, product.cost, product.category,
             product.rating, product.image, product.id)
  }

  /** What the entry contributes to the line items: one item when its product is
      in the catalog, nothing otherwise. */
  function Enrich(entry: CartEntry, products: seq<Product>): seq<CartItem> {
    match FindProduct(products, entry.productId)
    case None => []
    case Some(p) => [LineItem(entry, p)]
  }

  /** Specification of the reconciliation: the line items of `entries`,
      accumulated in entry order. */
  function CartItems(entries: seq<CartEntry>, products: seq<Product>): (r: seq<CartItem>)
    ensures |r| <= |entries|
  {
    if entries == [] then []
    else CartItems(entries[..|entries| - 1], products) + Enrich(entries[|entries| - 1], products)
  }

  /** Indices of the entries whose product is in the catalog, in increasing order. */
  function Origins(entries: seq<CartEntry>, products: seq<Product>): seq<nat> {
    if entries == [] then []
    else
      var n := |entries| - 1;
      Origins(entries[..n], products) +
        (if FindProduct(products, entries[n].productId).Some? then [n] else [])
  }

  /** generateCartItemsFrom: walks the entries in order and pushes a line item
      for every entry whose product is found. */
  method GenerateCartItemsFrom(cartData: seq<CartEntry>, productsData: seq<Product>)
    returns (cartItems: seq<CartItem>)
    ensures cartItems == CartItems(cartData, productsData)
  {
    cartItems := [];
    var i := 0;
    while i < |cartData|
      invariant 0 <= i <= |cartData|
      invariant cartItems == CartItems(cartData[..i], productsData)
    {
      var cartItem := cartData[i];
      var product := FindProduct(productsData, cartItem.productId);
      if product.Some? {
        cartItems := cartItems + [LineItem(cartItem, product.value)];
      }
      assert cartData[..i + 1][..i] == cartData[..i];
      i := i + 1;
    }
    assert cartData[..i] == cartData;
  }

  /** Reconciling a concatenation reconciles each part. */
  lemma {:induction false} CartItemsAppend(a: seq<CartEntry>, b: seq<CartEntry>, products: seq<Product>)
    ensures CartItems(a + b, products) == CartItems(a, products) + CartItems(b, products)
    decreases |b|
  {
    if b == [] {
      assert a + b == a;
    } else {
      var n := |b| - 1;
      assert (a + b)[..|a + b| - 1] == a + b[..n];
      CartItemsAppend(a, b[..n], products);
    }
  }

  /** The origins are indices of entries, strictly increasing: line items keep
      the relative order of their entries. */
  lemma {:induction false} OriginsOrdered(entries: seq<CartEntry>, products: seq<Product>)
    ensures forall k :: 0 <= k < |Origins(entries, products)| ==>
              Origins(entries, products)[k] < |entries|
    ensures forall k, l :: 0 <= k < l < |Origins(entries, products)| ==>
              Origins(entries, products)[k] < Origins(entries, products)[l]
  {
    if entries != [] {
      OriginsOrdered(entries[..|entries| - 1], products);
    }
  }

  /** An entry yields a line item exactly when its product is in the catalog. */
  lemma {:induction false} OriginsMembership(entries: seq<CartEntry>, products: seq<Product>)
    ensures forall i :: 0 <= i < |entries| ==>
              (i in Origins(entries, products) <==> InCatalog(products, entries[i].productId))
  {
    if entries != [] {
      var n := |entries| - 1;
      var prefix := entries[..n];
      OriginsMembership(prefix, products);
      OriginsOrdered(prefix, products);
      var idx, idx' := Origins(entries, products), Origins(prefix, products);
      assert n !in idx';
      forall i | 0 <= i < |entries|
        ensures i in idx <==> InCatalog(products, entries[i].productId)
      {
        if i < n {
          assert entries[i] == prefix[i];
        }
      }
    }
  }

  /** The k-th line item is the entry Origins[k] enriched with the first product
      of the catalog that carries its id: its quantity comes from the entry, every
      other field from that product. */
  lemma {:induction false} CartItemsAt(entries: seq<CartEntry>, products: seq<Product>)
    ensures |CartItems(entries, products)| == |Origins(entries, products)|
    ensures forall k :: 0 <= k < |Origins(entries, products)| ==>
              Origins(entries, products)[k] < |entries| &&
              FindProduct(products, entries[Origins(entries, products)[k]].productId).Some? &&
              CartItems(entries, products)[k] ==
                LineItem(entries[Origins(entries, products)[k]],
                         FindProduct(products, entries[Origins(entries, products)[k]].productId).value)
  {
    if entries != [] {
      var n := |entries| - 1;
      var prefix := entries[..n];
      CartItemsAt(prefix, products);
      OriginsOrdered(prefix, products);
      var items, idx := CartItems(entries, products), Origins(entries, products);
      var items', idx' := CartItems(prefix, products), Origins(prefix, products);
      forall k | 0 <= k < |idx'|
        ensures idx[k] == idx'[k] && items[k] == items'[k] && entries[idx[k]] == prefix[idx'[k]]
      {
      }
    }
  }

  /** A cart with no entries, or a catalog with no products, gives no line items. */
  lemma {:induction false} CartItemsEmpty(entries: seq<CartEntry>, products: seq<Product>)
    ensures products == [] ==> CartItems(entries, products) == []
  {
    if entries != [] && products == [] {
      CartItemsEmpty(entries[..|entries| - 1], products);
    }
  }

  /** No de-duplication: when every entry's product is in the catalog, every
      entry yields its own line item, whatever ids repeat. */
  lemma {:induction false} CartItemsKeepsEveryMatchedEntry(entries: seq<CartEntry>, products: seq<Product>)
    requires forall i :: 0 <= i < |entries| ==> InCatalog(products, entries[i].productId)
    ensures |CartItems(entries, products)| == |entries|
  {
    if entries != [] {
      CartItemsKeepsEveryMatchedEntry(entries[..|entries| - 1], products);
    }
  }

  /** When the backend keeps one entry per product, the cart has at most one line
      item per product id. */
  lemma CartItemsUniqueIds(entries: seq<CartEntry>, products: seq<Product>)
    requires forall i, j :: 0 <= i < j < |entries| ==> entries[i].productId != entries[j].productId
    ensures forall k, l :: 0 <= k < l < |CartItems(entries, products)| ==>
              CartItems(entries, products)[k].id != CartItems(entries, products)[l].id
  {
    CartItemsAt(entries, products);
    OriginsOrdered(entries, products);
    var items, idx := CartItems(entries, products), Origins(entries, products);
    forall k, l | 0 <= k < l < |items|
      ensures items[k].id != items[l].id
    {
      assert items[k].id == entries[idx[k]].productId;
      assert items[l].id == entries[idx[l]].productId;
    }
  }

  /** Specification of the cart value: the sum of cost * qty over the items. */
  function CartValue(items: seq<CartItem>): nat {
    if items == [] then 0
    else CartValue(items[..|items| - 1]) + LineValue(items[|items| - 1])
  }

  /** What one line item adds to the cart value. */
  function LineValue(item: CartItem): nat {
    item.cost * item.qty
  }

  /** getTotalCartValue: adds cost * qty of every item to a running total. */
  method GetTotalCartValue(items: seq<CartItem>) returns (total: nat)
    ensures total == CartValue(items)
  {
    total := 0;
    var i := 0;
    while i < |items|
      invariant 0 <= i <= |items|
      invariant total == CartValue(items[..i])
    {
      var item := items[i];
      total := total + item.cost * item.qty;
      assert items[..i + 1][..i] == items[..i];
      i := i + 1;
    }
    assert items[..i] == items;
  }

  /** The cart value is additive over concatenation. */
  lemma {:induction false} CartValueAppend(a: seq<CartItem>, b: seq<CartItem>)
    ensures CartValue(a + b) == CartValue(a) + CartValue(b)
    decreases |b|
  {
    if b == [] {
      assert a + b == a;
    } else {
      var n := |b| - 1;
      assert (a + b)[..|a + b| - 1] == a + b[..n];
      CartValueAppend(a, b[..n]);
    }
  }

  /** Taking out the item at `j` lowers the cart value by that item's value. */
  lemma CartValueRemove(b: seq<CartItem>, j: nat)
    requires j < |b|
    ensures CartValue(b) == CartValue(b[..j] + b[j + 1..]) + LineValue(b[j])
  {
    var left, right, withX := b[..j], b[j + 1..], b[..j + 1];
    assert b == withX + right;
    assert withX[..j] == left;
    assert CartValue(withX) == CartValue(left) + LineValue(b[j]);
    CartValueAppend(withX, right);
    CartValueAppend(left, right);
  }

  /** The cart value does not depend on the order of the items. */
  lemma {:induction false} CartValuePermutation(a: seq<CartItem>, b: seq<CartItem>)
    requires multiset(a) == multiset(b)
    ensures CartValue(a) == CartValue(b)
    decreases |a|
  {
    if a == [] {
      assert |b| == |multiset(b)| == 0;
    } else {
      var n := |a| - 1;
      var x := a[n];
      assert a == a[..n] + [x];
      assert x in multiset(b);
      var j :| 0 <= j < |b| && b[j] == x;
      var rest := b[..j] + b[j + 1..];
      assert b == b[..j] + [x] + b[j + 1..];
      assert multiset(a[..n]) == multiset(a) - multiset{x};
      assert multiset(rest) == multiset(b) - multiset{x};
      CartValuePermutation(a[..n], rest);
      CartValueRemove(b, j);
    }
  }

  /** getTotalItems: the number of line items. */
  function TotalItems(items: seq<CartItem>): nat {
    |items|
  }

  /** The sum of the quantities of the items (what the doc comment of
      getTotalItems describes; the code counts lines instead). */
  function Units(items: seq<CartItem>): nat {
    if items == [] then 0 else Units(items[..|items| - 1]) + items[|items| - 1].qty
  }

  /** The number of products of a reconciled cart is the number of entries whose
      product is in the catalog, whatever their quantities. */
  lemma {:induction false} TotalItemsOfCart(entries: seq<CartEntry>, products: seq<Product>)
    ensures TotalItems(CartItems(entries, products)) == |Origins(entries, products)|
  {
    CartItemsAt(entries, products);
  }

  /** The number of products never exceeds the number of units when every line
      has a positive quantity, and is equal to it only when every line holds one unit. */
  lemma {:induction false} TotalItemsAtMostUnits(items: seq<CartItem>)
    requires forall k :: 0 <= k < |items| ==> items[k].qty >= 1
    ensures TotalItems(items) <= Units(items)
    ensures TotalItems(items) == Units(items) <==> forall k :: 0 <= k < |items| ==> items[k].qty == 1
  {
    if items != [] {
      var n := |items| - 1;
      TotalItemsAtMostUnits(items[..n]);
      assert forall k :: 0 <= k < n ==> items[..n][k] == items[k];
    }
  }

  /** One line of two units: one product, two units. */
  lemma TotalItemsIsNotUnits()
    ensures var items := [CartItem("a", 2, 10, "c", 3, "i", "p1")];
            TotalItems(items) == 1 && Units(items) == 2 && CartValue(items) == 20
  {
  }
}
