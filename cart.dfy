/** The shopping cart (context/CartContext.tsx): the updaters that
    `addToCart`, `removeFromCart` and `updateQuantity` hand to `setCartItems`,
    the two `reduce` totals, and the provider whose `cartItems` state they
    replace. */
module Cart {
  import opened Types
  import opened Seqs

  /** What `addToCart` receives: a cart line without its quantity. */
  datatype CartProduct = CartProduct(productId: string, name: string, price: int, imageUrl: string)

  /** Some line of the cart is for `id` (`prevItems.find(...)` finds one). */
  predicate HasProduct(items: seq<CartItem>, id: string)
  {
    exists k :: 0 <= k < |items| && items[k].productId == id
  }

  /** No two lines are for the same product. */
  predicate UniqueIds(items: seq<CartItem>)
  {
    forall j, k :: 0 <= j < k < |items| ==> items[j].productId != items[k].productId
  }

  /** `getTotalItems`: the left fold summing the quantities. */
  function TotalItems(items: seq<CartItem>): int
  {
    if items == [] then 0 else TotalItems(items[..|items| - 1]) + items[|items| - 1].quantity
  }

  /** What one line adds to `getTotalPrice`. */
  function LineTotal(item: CartItem): int
  {
    item.price * item.quantity
  }

  /** `getTotalPrice`: the left fold summing price times quantity. */
  function TotalPrice(items: seq<CartItem>): int
  {
    if items == [] then 0 else TotalPrice(items[..|items| - 1]) + LineTotal(items[|items| - 1])
  }

  /** With no negative quantity (line amount) the item (price) total is
      not negative and at least every single line's quantity (amount). */
  lemma {:induction false} TotalsBoundLines(items: seq<CartItem>)
    ensures (forall k :: 0 <= k < |items| ==> items[k].quantity >= 0) ==>
              TotalItems(items) >= 0 && forall k :: 0 <= k < |items| ==> items[k].quantity <= TotalItems(items)
    ensures (forall k :: 0 <= k < |items| ==> LineTotal(items[k]) >= 0) ==>
              TotalPrice(items) >= 0 && forall k :: 0 <= k < |items| ==> LineTotal(items[k]) <= TotalPrice(items)
    decreases |items|
  {
    if items != [] {
      var front := items[..|items| - 1];
      TotalsBoundLines(front);
      assert forall k :: 0 <= k < |front| ==> front[k] == items[k];
    }
  }

  /** Both totals are sums: the totals of two carts put together are the
      sums of their totals, whatever order the lines are folded in. */
  lemma {:induction false} TotalsOfConcat(a: seq<CartItem>, b: seq<CartItem>)
    ensures TotalItems(a + b) == TotalItems(a) + TotalItems(b)
    ensures TotalPrice(a + b) == TotalPrice(a) + TotalPrice(b)
    decreases |b|
  {
    if b == [] {
      assert a + b == a;
    } else {
      var front := b[..|b| - 1];
      assert (a + b)[..|a + b| - 1] == a + front;
      TotalsOfConcat(a, front);
    }
  }

  /** The `addToCart` updater: every line for the product gets one more,
      keeping its stored name and price; a product not in the cart is
      appended with quantity 1. */
  function WithAdded(items: seq<CartItem>, p: CartProduct): (r: seq<CartItem>)
    ensures HasProduct(r, p.productId)
    ensures !HasProduct(items, p.productId) ==>
              r == items + [CartItem(p.productId, p.name, p.price, p.imageUrl, 1)]
    ensures HasProduct(items, p.productId) ==>
              && |r| == |items|
              && forall k :: 0 <= k < |items| ==>
                   r[k] == if items[k].productId == p.productId then items[k].(quantity := items[k].quantity + 1) else items[k]
  {
    if HasProduct(items, p.productId) then
      var j :| 0 <= j < |items| && items[j].productId == p.productId;
      var r := seq(|items|, k requires 0 <= k < |items| =>
        if items[k].productId == p.productId then items[k].(quantity := items[k].quantity + 1) else items[k]);
      assert r[j].productId == p.productId;
      r
    else
      var r := items + [CartItem(p.productId, p.name, p.price, p.imageUrl, 1)];
      assert r[|items|].productId == p.productId;
      r
  }

  /** The `removeFromCart` updater (`filter`): no line for `id` is left,
      every other line is kept, and the kept lines keep their order. */
  function WithRemoved(items: seq<CartItem>, id: string): (r: seq<CartItem>)
    ensures !HasProduct(r, id)
    ensures forall k :: 0 <= k < |items| && items[k].productId != id ==> items[k] in r
    ensures forall x :: x in r ==> x in items
    ensures IsSubsequence(r, items)
    ensures forall x {:trigger multiset(r)[x]} :: multiset(r)[x] == if x.productId != id then multiset(items)[x] else 0
  {
    Filter(items, (i: CartItem) => i.productId != id)
  }

  /** The `updateQuantity` updater: a quantity of 0 or less removes the
      product; any other sets the quantity of every line for it and leaves
      the rest (and a cart without the product) as it was. */
  function WithQuantity(items: seq<CartItem>, id: string, quantity: int): (r: seq<CartItem>)
    ensures quantity <= 0 ==> !HasProduct(r, id) && IsSubsequence(r, items)
    ensures quantity > 0 ==>
              && |r| == |items|
              && forall k :: 0 <= k < |items| ==>
                   r[k] == if items[k].productId == id then items[k].(quantity := quantity) else items[k]
    ensures quantity > 0 && !HasProduct(items, id) ==> r == items
  {
    if quantity <= 0 then WithRemoved(items, id)
    else seq(|items|, k requires 0 <= k < |items| =>
           if items[k].productId == id then items[k].(quantity := quantity) else items[k])
  }

  /** Replacing one line changes each total by that line's difference. */
  lemma {:induction false} TotalsAfterReplace(items: seq<CartItem>, k: nat, x: CartItem)
    requires k < |items|
    ensures TotalItems(items[k := x]) == TotalItems(items) - items[k].quantity + x.quantity
    ensures TotalPrice(items[k := x]) == TotalPrice(items) - LineTotal(items[k]) + LineTotal(x)
    decreases |items|
  {
    var n := |items|;
    var front := items[..n - 1];
    if k == n - 1 {
      assert items[k := x][..n - 1] == front;
    } else {
      assert items[k := x][..n - 1] == front[k := x];
      TotalsAfterReplace(front, k, x);
    }
  }

  /** On a cart without duplicates a per-product update touches one line. */
  lemma OnlyLineFor(items: seq<CartItem>, k: nat, r: seq<CartItem>, x: CartItem)
    requires UniqueIds(items) && k < |items| && |r| == |items| && r[k] == x
    requires forall j :: 0 <= j < |items| && j != k ==> r[j] == items[j]
    ensures r == items[k := x]
  {
  }

  /** `addToCart` keeps the product ids unique. */
  lemma AddKeepsUnique(items: seq<CartItem>, p: CartProduct)
    requires UniqueIds(items)
    ensures UniqueIds(WithAdded(items, p))
  {
    var r := WithAdded(items, p);
    if HasProduct(items, p.productId) {
      assert forall k :: 0 <= k < |items| ==> r[k].productId == items[k].productId;
    } else {
      assert forall k :: 0 <= k < |items| ==> r[k] == items[k];
    }
  }

  /** `addToCart` on a cart without duplicates adds exactly one to
      `getTotalItems`; `getTotalPrice` grows by the cart's stored price for a
      product already there, and by the given price for a new one. */
  lemma AddToCartTotals(items: seq<CartItem>, p: CartProduct)
    requires UniqueIds(items)
    ensures TotalItems(WithAdded(items, p)) == TotalItems(items) + 1
    ensures forall k :: 0 <= k < |items| && items[k].productId == p.productId ==>
              TotalPrice(WithAdded(items, p)) == TotalPrice(items) + items[k].price
    ensures !HasProduct(items, p.productId) ==> TotalPrice(WithAdded(items, p)) == TotalPrice(items) + p.price
  {
    if HasProduct(items, p.productId) {
      var k :| 0 <= k < |items| && items[k].productId == p.productId;
      AddExistingTotals(items, p, k);
    } else {
      var r := WithAdded(items, p);
      assert r[..|items|] == items;
    }
  }

  lemma AddExistingTotals(items: seq<CartItem>, p: CartProduct, k: nat)
    requires UniqueIds(items) && k < |items| && items[k].productId == p.productId
    ensures TotalItems(WithAdded(items, p)) == TotalItems(items) + 1
    ensures TotalPrice(WithAdded(items, p)) == TotalPrice(items) + items[k].price
    ensures forall j :: 0 <= j < |items| && items[j].productId == p.productId ==> j == k
  {
    var line := items[k];
    var x := line.(quantity := line.quantity + 1);
    var r := WithAdded(items, p);
    assert forall j :: 0 <= j < |items| && j != k ==> items[j].productId != p.productId;
    assert forall j :: 0 <= j < |items| && j != k ==> r[j] == items[j];
    OnlyLineFor(items, k, r, x);
    TotalsAfterReplace(items, k, x);
    OneMoreUnit(line);
  }

  lemma OneMoreUnit(line: CartItem)
    ensures LineTotal(line.(quantity := line.quantity + 1)) == LineTotal(line) + line.price
  {
    assert line.price * (line.quantity + 1) == line.price * line.quantity + line.price;
  }

  /** `updateQuantity(id, q)` with `q > 0` on a cart without duplicates keeps
      the ids unique and moves `getTotalItems` by the line's difference. */
  lemma UpdateQuantityTotals(items: seq<CartItem>, k: nat, quantity: int)
    requires UniqueIds(items) && k < |items| && quantity > 0
    ensures UniqueIds(WithQuantity(items, items[k].productId, quantity))
    ensures TotalItems(WithQuantity(items, items[k].productId, quantity)) == TotalItems(items) - items[k].quantity + quantity
  {
    var x := items[k].(quantity := quantity);
    OnlyLineFor(items, k, WithQuantity(items, items[k].productId, quantity), x);
    TotalsAfterReplace(items, k, x);
  }

  /** `updateQuantity` with a quantity of 0 or less is `removeFromCart`. */
  lemma NonPositiveUpdateIsRemove(items: seq<CartItem>, id: string, quantity: int)
    requires quantity <= 0
    ensures WithQuantity(items, id, quantity) == WithRemoved(items, id)
  {
  }

  /** `removeFromCart` leaves the cart as it was exactly when the cart
      holds no line for the product. */
  lemma RemoveIsIdentityIffAbsent(items: seq<CartItem>, id: string)
    ensures WithRemoved(items, id) == items <==> !HasProduct(items, id)
  {
    FilterKeepsAllIffAllPass(items, (i: CartItem) => i.productId != id);
  }

  /** Removing a product that was just added to a cart without it gives the
      cart back. */
  lemma RemoveUndoesAddOfNew(items: seq<CartItem>, p: CartProduct)
    requires !HasProduct(items, p.productId)
    ensures WithRemoved(WithAdded(items, p), p.productId) == items
  {
    var added := WithAdded(items, p);
    assert added[..|added| - 1] == items;
    RemoveIsIdentityIffAbsent(items, p.productId);
  }

  /** Every line has a positive quantity and is for a distinct product. */
  ghost predicate WellFormed(items: seq<CartItem>)
  {
    UniqueIds(items) && forall k :: 0 <= k < |items| ==> items[k].quantity > 0
  }

  /** Each updater keeps a cart well formed. */
  lemma AddKeepsWellFormed(items: seq<CartItem>, p: CartProduct)
    requires WellFormed(items)
    ensures WellFormed(WithAdded(items, p))
  {
    AddKeepsUnique(items, p);
  }

  lemma QuantityKeepsWellFormed(items: seq<CartItem>, id: string, quantity: int)
    requires WellFormed(items)
    ensures WellFormed(WithQuantity(items, id, quantity))
  {
    if quantity <= 0 {
      RemovedKeepsWellFormed(items, id);
    } else {
      var r := WithQuantity(items, id, quantity);
      assert forall k :: 0 <= k < |items| ==> r[k].productId == items[k].productId;
    }
  }

  lemma {:induction false} RemovedKeepsWellFormed(items: seq<CartItem>, id: string)
    requires WellFormed(items)
    ensures WellFormed(WithRemoved(items, id))
    decreases |items|
  {
    if items != [] {
      var front, last := items[..|items| - 1], items[|items| - 1];
      RemovedKeepsWellFormed(front, id);
      var m := WithRemoved(front, id);
      if last.productId != id {
        assert forall k :: 0 <= k < |m| ==> m[k] in front;
        assert !(exists k :: 0 <= k < |front| && front[k].productId == last.productId);
      }
    }
  }

  /** The cart state of `CartProvider`. Loading it from and saving it to
      local storage is not modelled, so it starts empty. */
  class CartProvider {
    var cartItems: seq<CartItem>

    ghost predicate Valid()
      reads this
    {
      WellFormed(cartItems)
    }

    constructor ()
      ensures Valid() && cartItems == []
    {
      cartItems := [];
    }

    method AddToCart(p: CartProduct)
      requires Valid()
      modifies this
      ensures Valid() && cartItems == WithAdded(old(cartItems), p)
    {
      AddKeepsWellFormed(cartItems, p);
      cartItems := WithAdded(cartItems, p);
    }

    method RemoveFromCart(id: string)
      requires Valid()
      modifies this
      ensures Valid() && cartItems == WithRemoved(old(cartItems), id)
    {
      RemovedKeepsWellFormed(cartItems, id);
      cartItems := WithRemoved(cartItems, id);
    }

    method UpdateQuantity(id: string, quantity: int)
      requires Valid()
      modifies this
      ensures Valid() && cartItems == WithQuantity(old(cartItems), id, quantity)
    {
      QuantityKeepsWellFormed(cartItems, id, quantity);
      cartItems := WithQuantity(cartItems, id, quantity);
    }

    /** `clearCart`: the cart is emptied, so both totals are 0. */
    method ClearCart()
      modifies this
      ensures Valid() && cartItems == [] && TotalItems(cartItems) == 0 && TotalPrice(cartItems) == 0
    {
      cartItems := [];
    }
  }
}
