/** The product page's quantity picker and its "Add to Cart" button
    (components/ProductDetail.tsx). */
module ProductDetail {
  import opened Types
  import opened Cart

  /** The quantity input's handler, `Math.max(1, parseInt(value) || 1)`:
      `parsed` is the result of `parseInt`, absent for NaN. NaN and 0 give 1,
      and anything below 1 is raised to 1. */
  function ClampInput(parsed: Option<int>): (r: int)
    ensures r >= 1
    ensures parsed.Some? && parsed.value >= 1 ==> r == parsed.value
    ensures parsed.None? || parsed.value < 1 ==> r == 1
  {
    var n := if parsed.Some? && parsed.value != 0 then parsed.value else 1;
    if n > 1 then n else 1
  }

  /** The cart line the button adds. */
  function LineFor(product: Product): CartProduct
  {
    CartProduct(product.id, product.name, product.price, product.imageUrl)
  }

  /** The cart after `addToCart(p)` has been applied `n` times in a row. */
  function AddTimes(items: seq<CartItem>, p: CartProduct, n: nat): seq<CartItem>
  {
    if n == 0 then items else WithAdded(AddTimes(items, p, n - 1), p)
  }

  /** Adding a product `n >= 1` times raises the quantity of its line(s) by
      `n`, or appends it with quantity `n`, and leaves every other line as it
      was. */
  lemma {:induction false} AddTimesEffect(items: seq<CartItem>, p: CartProduct, n: nat)
    requires n >= 1
    ensures HasProduct(items, p.productId) ==>
              && |AddTimes(items, p, n)| == |items|
              && forall k :: 0 <= k < |items| ==>
                   AddTimes(items, p, n)[k] ==
                     if items[k].productId == p.productId then items[k].(quantity := items[k].quantity + n) else items[k]
    ensures !HasProduct(items, p.productId) ==>
              AddTimes(items, p, n) == items + [CartItem(p.productId, p.name, p.price, p.imageUrl, n)]
  {
    if n > 1 {
      AddTimesEffect(items, p, n - 1);
      var prev := AddTimes(items, p, n - 1);
      var r := AddTimes(items, p, n);
      assert HasProduct(prev, p.productId);
      if !HasProduct(items, p.productId) {
        assert prev[|items|].productId == p.productId;
        assert forall k :: 0 <= k < |items| ==> prev[k] == items[k] && items[k].productId != p.productId;
        assert r == items + [CartItem(p.productId, p.name, p.price, p.imageUrl, n)];
      }
    }
  }

  /** On a cart without duplicates, adding a product `n` times raises
      `getTotalItems` by exactly `n` and keeps the ids unique. */
  lemma {:induction false} AddTimesTotalItems(items: seq<CartItem>, p: CartProduct, n: nat)
    requires UniqueIds(items)
    ensures UniqueIds(AddTimes(items, p, n))
    ensures TotalItems(AddTimes(items, p, n)) == TotalItems(items) + n
  {
    if n > 0 {
      var prev := AddTimes(items, p, n - 1);
      AddTimesTotalItems(items, p, n - 1);
      AddKeepsUnique(prev, p);
      AddToCartTotals(prev, p);
      assert AddTimes(items, p, n) == WithAdded(prev, p);
    }
  }

  /** The component's state: the product shown and the selected quantity. */
  class ProductView {
    const product: Product
    var quantity: int

    ghost predicate Valid()
      reads this
    {
      quantity >= 1
    }

    /** `useState(1)`. */
    constructor (product: Product)
      ensures Valid() && this.product == product && quantity == 1
    {
      this.product := product;
      quantity := 1;
    }

    /** The "-" button, `Math.max(1, quantity - 1)`. */
    method Decrement()
      modifies this
      ensures Valid()
      ensures quantity == if old(quantity) > 1 then old(quantity) - 1 else 1
    {
      quantity := if quantity - 1 > 1 then quantity - 1 else 1;
    }

    /** The "+" button. */
    method Increment()
      requires Valid()
      modifies this
      ensures Valid() && quantity == old(quantity) + 1
    {
      quantity := quantity + 1;
    }

    /** The quantity input. */
    method SetFromInput(parsed: Option<int>)
      modifies this
      ensures Valid() && quantity == ClampInput(parsed)
    {
      quantity := ClampInput(parsed);
    }

    /** `handleAddToCart`: one `addToCart` per unit of the selected quantity. */
    method HandleAddToCart(cart: CartProvider)
      requires Valid() && cart.Valid()
      modifies cart
      ensures cart.Valid() && cart.cartItems == AddTimes(old(cart.cartItems), LineFor(product), quantity)
    {
      var i := 0;
      while i < quantity
        invariant 0 <= i <= quantity
        invariant cart.Valid() && cart.cartItems == AddTimes(old(cart.cartItems), LineFor(product), i)
      {
        cart.AddToCart(LineFor(product));
        i := i + 1;
      }
    }
  }
}
