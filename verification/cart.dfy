/**
 * The shopping-cart page (`CartPage`): the guarded quantity step, the order
 * summary (subtotal, shipping, tax, total, item count), the free-shipping
 * nudge and the "You May Also Like" list.
 *
 * The cart store itself lives outside the page: the page reads its line items
 * and dispatches actions to it. Money is exact (`real`), so the 18% tax is
 * exactly 18/100 of the subtotal.
 */
module Cart {
  import opened Wrappers

  type ProductId = string

  /** A catalog product as the page receives it. */
  datatype Product = Product(id: ProductId, name: string, image: string, price: real, countInStock: int)

  /** A cart entry: the product's fields with the chosen quantity (`{...product, qty}`). */
  datatype LineItem = LineItem(product: Product, qty: int)

  /** What the page sends to the cart store. */
  datatype CartAction = AddToCart(item: LineItem) | RemoveFromCart(id: ProductId)

  const FreeShippingThreshold: real := 1000.0
  const ShippingFee: real := 100.0
  const TaxPercent: real := 18.0
  const RecommendationLimit: nat := 4

  // ---------------------------------------------------------------------------
  // Quantity step

  /**
   * The update `updateQuantity` issues for a step of `change`: the same item with
   * the new quantity, provided that quantity is positive and within stock.
   */
  function QuantityStep(item: LineItem, change: int): (next: Option<LineItem>)
    ensures next.Some? <==> 0 < item.qty + change <= item.product.countInStock
    ensures next.Some? ==> next.value.product == item.product && next.value.qty == item.qty + change
    ensures next.Some? ==> 1 <= next.value.qty <= item.product.countInStock
  {
    var newQty := item.qty + change;
    if newQty > 0 && newQty <= item.product.countInStock then Some(LineItem(item.product, newQty)) else None
  }

  /** A line item within the bounds the quantity controls keep. */
  predicate InStockRange(item: LineItem)
  {
    1 <= item.qty <= item.product.countInStock
  }

  /**
   * The step buttons are disabled (`qty <= 1`, `qty >= countInStock`) exactly
   * when the guard would refuse their step, for an item within stock.
   */
  lemma ButtonsMatchGuard(item: LineItem)
    requires InStockRange(item)
    ensures QuantityStep(item, -1).None? <==> item.qty <= 1
    ensures QuantityStep(item, 1).None? <==> item.qty >= item.product.countInStock
  {
  }

  /** A step up followed by a step down, when both are applied, restores the item, and vice versa. */
  lemma StepRoundTrip(item: LineItem)
    requires InStockRange(item)
    ensures QuantityStep(item, 1).Some? ==> QuantityStep(QuantityStep(item, 1).value, -1) == Some(item)
    ensures QuantityStep(item, -1).Some? ==> QuantityStep(QuantityStep(item, -1).value, 1) == Some(item)
  {
  }

  // ---------------------------------------------------------------------------
  // Order summary

  function LineTotal(item: LineItem): real
  {
    item.qty as real * item.product.price
  }

  /**
   * `cartItems.reduce((acc, item) => acc + item.qty * item.price, 0)`, folding
   * from the left: 0 for an empty cart, and never negative when no price or
   * quantity is.
   */
  function Subtotal(items: seq<LineItem>): (total: real)
    ensures items == [] ==> total == 0.0
    ensures (forall i :: 0 <= i < |items| ==> items[i].qty >= 0 && items[i].product.price >= 0.0) ==> total >= 0.0
  {
    if items == [] then 0.0
    else
      var last := items[|items| - 1];
      assert last.qty >= 0 && last.product.price >= 0.0 ==> LineTotal(last) >= 0.0 by {
        if last.qty >= 0 && last.product.price >= 0.0 {
          assert last.qty as real >= 0.0;
        }
      }
      Subtotal(items[..|items| - 1]) + LineTotal(last)
  }

  /** The subtotal of two runs of line items is the sum of their subtotals. */
  lemma {:induction false} SubtotalAppend(a: seq<LineItem>, b: seq<LineItem>)
    ensures Subtotal(a + b) == Subtotal(a) + Subtotal(b)
    decreases |b|
  {
    if b == [] {
      assert a + b == a;
    } else {
      var b' := b[..|b| - 1];
      assert (a + b)[..|a + b| - 1] == a + b';
      SubtotalAppend(a, b');
    }
  }

  /** Replacing one line changes the subtotal by exactly that line's difference. */
  lemma SubtotalReplace(items: seq<LineItem>, k: nat, item: LineItem)
    requires k < |items|
    ensures Subtotal(items[k := item]) == Subtotal(items) - LineTotal(items[k]) + LineTotal(item)
  {
    assert items == items[..k] + [items[k]] + items[k + 1..];
    assert items[k := item] == items[..k] + [item] + items[k + 1..];
    SubtotalAppend(items[..k] + [items[k]], items[k + 1..]);
    SubtotalAppend(items[..k] + [item], items[k + 1..]);
    SubtotalAppend(items[..k], [items[k]]);
    SubtotalAppend(items[..k], [item]);
    assert [items[k]][..0] == [] && [item][..0] == [];
  }

  /** The order of the lines does not matter to the subtotal: any rearrangement has the same one. */
  lemma {:induction false} SubtotalPermutation(a: seq<LineItem>, b: seq<LineItem>)
    requires multiset(a) == multiset(b)
    ensures Subtotal(a) == Subtotal(b)
    decreases |a|
  {
    if a != [] {
      var a' := a[..|a| - 1];
      var x := a[|a| - 1];
      assert a == a' + [x];
      assert x in multiset(b);
      var j :| 0 <= j < |b| && b[j] == x;
      var b' := b[..j] + b[j + 1..];
      assert b == b[..j] + [x] + b[j + 1..];
      assert multiset(a) == multiset(a') + multiset{x};
      assert multiset(b) == multiset(b[..j]) + multiset{x} + multiset(b[j + 1..]);
      assert multiset(b') == multiset(b[..j]) + multiset(b[j + 1..]);
      assert multiset(a') == multiset(a) - multiset{x};
      assert multiset(b') == multiset(b) - multiset{x};
      SubtotalPermutation(a', b');
      SubtotalAppend(b[..j] + [x], b[j + 1..]);
      SubtotalAppend(b[..j], [x]);
      SubtotalAppend(b[..j], b[j + 1..]);
      assert [x][..0] == [];
    }
  }

  /** `subtotal > 1000 ? 0 : 100` */
  function Shipping(subtotal: real): (fee: real)
    ensures fee == 0.0 || fee == ShippingFee
    ensures fee == 0.0 <==> subtotal > FreeShippingThreshold
  {
    if subtotal > FreeShippingThreshold then 0.0 else ShippingFee
  }

  /** `subtotal * 0.18`, exact. */
  function Tax(subtotal: real): (tax: real)
    ensures subtotal >= 0.0 ==> 0.0 <= tax <= subtotal
  {
    subtotal * TaxPercent / 100.0
  }

  datatype Summary = Summary(subtotal: real, shipping: real, tax: real, total: real)

  /**
   * The order summary of a cart: the 100 fee is charged up to and including a
   * subtotal of 1000, tax is 18% of the subtotal, and the total is 118% of the
   * subtotal plus the fee.
   */
  function PriceSummary(items: seq<LineItem>): (s: Summary)
    ensures s.subtotal == Subtotal(items)
    ensures s.shipping == ShippingFee <==> s.subtotal <= FreeShippingThreshold
    ensures s.shipping == 0.0 <==> s.subtotal > FreeShippingThreshold
    ensures s.tax * 100.0 == s.subtotal * TaxPercent
    ensures s.total == s.subtotal * 118.0 / 100.0 + s.shipping
    ensures s.total == s.subtotal + s.shipping + s.tax
  {
    var subtotal := Subtotal(items);
    var shipping := Shipping(subtotal);
    var tax := Tax(subtotal);
    Summary(subtotal, shipping, tax, subtotal + shipping + tax)
  }

  /** An empty cart pays nothing but the flat shipping fee. */
  lemma EmptyCartSummary()
    ensures PriceSummary([]) == Summary(0.0, 100.0, 0.0, 100.0)
  {
  }

  /** A cart worth 500 pays 100 shipping and 90 tax, 690 in all. */
  lemma SummaryAt500(items: seq<LineItem>)
    requires Subtotal(items) == 500.0
    ensures PriceSummary(items) == Summary(500.0, 100.0, 90.0, 690.0)
  {
  }

  /**
   * Shipping is free only strictly above 1000: a subtotal of exactly 1000 still
   * pays the fee, and the total is 118% of the subtotal plus that fee.
   */
  lemma {:induction false} TotalAroundThreshold(items: seq<LineItem>)
    ensures Subtotal(items) <= FreeShippingThreshold ==> PriceSummary(items).total == Subtotal(items) * 1.18 + 100.0
    ensures Subtotal(items) > FreeShippingThreshold ==> PriceSummary(items).total == Subtotal(items) * 1.18
    ensures Subtotal(items) == FreeShippingThreshold ==> PriceSummary(items).shipping == ShippingFee
  {
  }

  /**
   * `cartItems.reduce((acc, item) => acc + item.qty, 0)`: the item count shown
   * beside the subtotal; with every quantity at least 1 it is at least the
   * number of lines.
   */
  function ItemCount(items: seq<LineItem>): (count: int)
    ensures (forall i :: 0 <= i < |items| ==> items[i].qty >= 1) ==> count >= |items|
  {
    if items == [] then 0 else ItemCount(items[..|items| - 1]) + items[|items| - 1].qty
  }

  /**
   * The checkout button is disabled when the cart has no lines
   * (`cartItems.length === 0`); with every quantity at least 1 that is exactly
   * when the item count is 0.
   */
  predicate CheckoutDisabled(items: seq<LineItem>)
    ensures (forall i :: 0 <= i < |items| ==> items[i].qty >= 1) ==> (CheckoutDisabled(items) <==> ItemCount(items) == 0)
  {
    |items| == 0
  }

  // ---------------------------------------------------------------------------
  // Free-shipping nudge

  /**
   * The amount shown in "Add items worth … more to get free shipping!", present
   * only while shipping is charged.
   */
  function FreeShippingNudge(subtotal: real): (gap: Option<real>)
    ensures gap.Some? <==> Shipping(subtotal) > 0.0
    ensures gap.Some? ==> gap.value >= 0.0 && subtotal + gap.value == FreeShippingThreshold
  {
    if Shipping(subtotal) > 0.0 then Some(FreeShippingThreshold - subtotal) else None
  }

  /**
   * Because the threshold is strict, adding exactly the amount shown still pays
   * shipping; any larger addition earns free shipping.
   */
  lemma NudgeAmountIsExclusive(subtotal: real, extra: real)
    requires FreeShippingNudge(subtotal).Some?
    ensures Shipping(subtotal + extra) == 0.0 <==> extra > FreeShippingNudge(subtotal).value
  {
  }

  /** At a subtotal of exactly 1000 the nudge is shown, asking for 0 more, and shipping is still charged. */
  lemma NudgeAtThreshold()
    ensures FreeShippingNudge(FreeShippingThreshold) == Some(0.0)
    ensures Shipping(FreeShippingThreshold + 0.0) == ShippingFee
  {
  }

  // ---------------------------------------------------------------------------
  // "You May Also Like"

  /**
   * `cartItems.find((item) => item._id === id)`: the first line item of that
   * product, or nothing when no line has it.
   */
  function Find(cartItems: seq<LineItem>, id: ProductId): (found: Option<LineItem>)
    ensures found.None? <==> forall i :: 0 <= i < |cartItems| ==> cartItems[i].product.id != id
    ensures found.Some? ==> exists i :: 0 <= i < |cartItems| && cartItems[i] == found.value && found.value.product.id == id
                              && forall j :: 0 <= j < i ==> cartItems[j].product.id != id
  {
    if cartItems == [] then None
    else if cartItems[0].product.id == id then Some(cartItems[0])
    else
      var rest := Find(cartItems[1..], id);
      assert forall i :: 0 < i < |cartItems| ==> cartItems[i] == cartItems[1..][i - 1];
      rest
  }

  /** `!cartItems.find(...)` is false: some line item has that product. */
  predicate InCart(cartItems: seq<LineItem>, id: ProductId)
  {
    Find(cartItems, id).Some?
  }

  /** `a` is obtained from `b` by deleting elements: same elements, same order. */
  predicate IsSubsequence<T(==)>(a: seq<T>, b: seq<T>)
    decreases |b|
  {
    if a == [] then true
    else if b == [] then false
    else (a[0] == b[0] && IsSubsequence(a[1..], b[1..])) || IsSubsequence(a, b[1..])
  }

  /** `products.filter((product) => !cartItems.find(...))`, left to right. */
  function Survivors(catalog: seq<Product>, cartItems: seq<LineItem>): (kept: seq<Product>)
    ensures forall i :: 0 <= i < |kept| ==> !InCart(cartItems, kept[i].id)
    ensures forall p :: p in catalog && !InCart(cartItems, p.id) ==> p in kept
    ensures IsSubsequence(kept, catalog)
  {
    if catalog == [] then []
    else
      var rest := Survivors(catalog[1..], cartItems);
      if InCart(cartItems, catalog[0].id) then rest else [catalog[0]] + rest
  }

  /** One step of the filter: the head is kept exactly when it is not in the cart. */
  lemma SurvivorsStep(catalog: seq<Product>, cartItems: seq<LineItem>)
    requires catalog != []
    ensures Survivors(catalog, cartItems) ==
      (if InCart(cartItems, catalog[0].id) then [] else [catalog[0]]) + Survivors(catalog[1..], cartItems)
  {
  }

  /**
   * The filter keeps every occurrence of a product not in the cart, duplicates
   * included, and no occurrence of one in the cart.
   */
  lemma {:induction false} SurvivorsMultiplicity(catalog: seq<Product>, cartItems: seq<LineItem>, p: Product)
    ensures multiset(Survivors(catalog, cartItems))[p] == if InCart(cartItems, p.id) then 0 else multiset(catalog)[p]
  {
    if catalog != [] {
      assert catalog == [catalog[0]] + catalog[1..];
      SurvivorsStep(catalog, cartItems);
      SurvivorsMultiplicity(catalog[1..], cartItems, p);
    }
  }

  /** A prefix of a subsequence is a subsequence. */
  lemma {:induction false} PrefixIsSubsequence<T>(a: seq<T>, b: seq<T>, n: nat)
    requires n <= |a| && IsSubsequence(a, b)
    ensures IsSubsequence(a[..n], b)
    decreases |b|
  {
    if n > 0 {
      if a[0] == b[0] && IsSubsequence(a[1..], b[1..]) {
        PrefixIsSubsequence(a[1..], b[1..], n - 1);
        assert a[..n][1..] == a[1..][..n - 1];
      } else {
        PrefixIsSubsequence(a, b[1..], n);
      }
    }
  }

  function Min(a: int, b: int): int
  {
    if a < b then a else b
  }

  /**
   * The recommendations: catalog products not already in the cart, in catalog
   * order, at most four (`.slice(0, 4)`).
   */
  function Recommend(catalog: seq<Product>, cartItems: seq<LineItem>): (shown: seq<Product>)
    ensures |shown| == Min(RecommendationLimit, |Survivors(catalog, cartItems)|)
    ensures forall i :: 0 <= i < |shown| ==> !InCart(cartItems, shown[i].id)
    ensures shown == Survivors(catalog, cartItems)[..|shown|]
    ensures IsSubsequence(shown, catalog)
    ensures |shown| < RecommendationLimit ==> forall p :: p in catalog && !InCart(cartItems, p.id) ==> p in shown
  {
    var kept := Survivors(catalog, cartItems);
    var n := Min(RecommendationLimit, |kept|);
    PrefixIsSubsequence(kept, catalog, n);
    assert n < RecommendationLimit ==> kept[..n] == kept;
    kept[..n]
  }

  /**
   * The section is rendered only for a non-empty cart once the catalog page has
   * loaded (`cartItems.length > 0 && !isLoadingProducts && products`).
   */
  function RecommendationSection(cartItems: seq<LineItem>, page: Option<seq<Product>>): (section: Option<seq<Product>>)
    ensures section.Some? <==> |cartItems| > 0 && page.Some?
    ensures section.Some? ==> section.value == Recommend(page.value, cartItems)
  {
    if |cartItems| > 0 && page.Some? then Some(Recommend(page.value, cartItems)) else None
  }

  /** The filter applied to a catalog with one more product in front. */
  lemma SurvivorsCons(p: Product, rest: seq<Product>, cartItems: seq<LineItem>, kept: seq<Product>)
    requires Survivors(rest, cartItems) == kept
    ensures Survivors([p] + rest, cartItems) == if InCart(cartItems, p.id) then kept else [p] + kept
  {
    assert ([p] + rest)[1..] == rest;
  }

  /** A catalog page [A, B, C, D] with B in the cart keeps A, C and D. */
  lemma ExampleSurvivors(a: Product, b: Product, c: Product, d: Product, cart: seq<LineItem>)
    requires !InCart(cart, a.id) && InCart(cart, b.id) && !InCart(cart, c.id) && !InCart(cart, d.id)
    ensures Survivors([a, b, c, d], cart) == [a, c, d]
  {
    assert [d] == [d] + [];
    SurvivorsCons(d, [], cart, []);
    assert [c, d] == [c] + [d];
    SurvivorsCons(c, [d], cart, [d]);
    assert [b, c, d] == [b] + [c, d];
    SurvivorsCons(b, [c, d], cart, [c, d]);
    assert [a, b, c, d] == [a] + [b, c, d] && [a, c, d] == [a] + [c, d];
    SurvivorsCons(a, [b, c, d], cart, [c, d]);
  }

  /** A catalog page [A, B, C, D] with B in the cart recommends [A, C, D]. */
  lemma RecommendExample(a: Product, b: Product, c: Product, d: Product, qty: int)
    requires a.id == "A" && b.id == "B" && c.id == "C" && d.id == "D"
    ensures Recommend([a, b, c, d], [LineItem(b, qty)]) == [a, c, d]
  {
    var cart := [LineItem(b, qty)];
    assert cart[1..] == [];
    assert Find(cart, a.id) == Find(cart[1..], a.id) == None;
    assert Find(cart, c.id) == Find(cart[1..], c.id) == None;
    assert Find(cart, d.id) == Find(cart[1..], d.id) == None;
    assert Find(cart, b.id) == Some(cart[0]);
    ExampleSurvivors(a, b, c, d, cart);
  }

  // ---------------------------------------------------------------------------
  // The page's actions

  /** The page's view of the cart store: the line items it reads and the actions it dispatches. */
  class CartPage {
    const cartItems: seq<LineItem>
    var dispatched: seq<CartAction>

    constructor (cartItems: seq<LineItem>)
      ensures this.cartItems == cartItems && dispatched == []
    {
      this.cartItems := cartItems;
      dispatched := [];
    }

    /** `addToCartHandler`: dispatches the product with the given quantity. */
    method AddToCartHandler(product: Product, qty: int)
      modifies this`dispatched
      ensures dispatched == old(dispatched) + [AddToCart(LineItem(product, qty))]
    {
      dispatched := dispatched + [AddToCart(LineItem(product, qty))];
    }

    /** `removeFromCartHandler`: dispatches the removal of one product. */
    method RemoveFromCartHandler(id: ProductId)
      modifies this`dispatched
      ensures dispatched == old(dispatched) + [RemoveFromCart(id)]
    {
      dispatched := dispatched + [RemoveFromCart(id)];
    }

    /**
     * `updateQuantity`: issues one update for the same item with quantity
     * `qty + change` when that lies in [1, countInStock], and nothing otherwise.
     */
    method UpdateQuantity(item: LineItem, change: int)
      modifies this`dispatched
      ensures QuantityStep(item, change).None? ==> dispatched == old(dispatched)
      ensures QuantityStep(item, change).Some? ==>
        dispatched == old(dispatched) + [AddToCart(QuantityStep(item, change).value)]
    {
      var newQty := item.qty + change;
      if newQty > 0 && newQty <= item.product.countInStock {
        AddToCartHandler(item.product, newQty);
      }
    }
  }
}
