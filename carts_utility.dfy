/** The cart totals engine: `formatPrice` and `updateShoppingCart`, which recomputes the four
    derived price fields of the cart state from its items, in place, and stores a snapshot
    of the state in the browser's local storage. Prices are exact reals. */
module CartsUtility {
  import opened Wrappers
  import opened Decimal
  import opened JsNumber
  import opened CartModel

  /** `formatPrice(num)`: `num` rounded to the nearest hundredth, a tie going up, written with
      exactly two digits after the point (and a leading '-' when the rounded value is negative). */
  function FormatPrice(num: real): (s: string)
  {
    RenderCents(MathRound(num * 100.0))
  }

  /** `FormatPrice` is what line 3 computes: `Math.round(num * 100) / 100`, then `toFixed(2)`.
      The division leaves an exact multiple of a hundredth, which `toFixed(2)` writes digit for
      digit; `Math.round` returning -0 for values in [-0.005, 0) is written "0.00" either way. */
  lemma FormatPriceIsToFixed2(num: real)
    ensures FormatPrice(num) == ToFixed2(MathRound(num * 100.0) as real / 100.0)
  {
    ToFixed2OfCents(MathRound(num * 100.0));
  }

  /** What `formatPrice` writes reads back as the number of hundredths nearest to `num`, a
      tie going up. */
  lemma FormatPriceNearest(num: real)
    ensures ParseFixed2(FormatPrice(num)) == Some(MathRound(num * 100.0))
    ensures num * 100.0 - 0.5 < ParseFixed2(FormatPrice(num)).value as real <= num * 100.0 + 0.5
  {
    ParseRenderCents(MathRound(num * 100.0));
  }

  /** Whatever the number, `formatPrice` writes exactly two digits after a point. */
  lemma FormatPriceShape(num: real)
    ensures var s := FormatPrice(num);
      |s| >= 4 && s[|s| - 3] == '.' && IsDigit(s[|s| - 2]) && IsDigit(s[|s| - 1])
  {
    FormatPriceNearest(num);
  }

  /** One step of the reduction: a line's amount, scaled to hundredths and back. The scaling
      cancels, so it is exactly price times quantity. */
  function LineAmount(item: CartItem): (a: real)
    ensures a == item.price * item.qty as real
  {
    (item.price * 100.0 * item.qty as real) / 100.0
  }

  /** The unrounded items total: the line amounts added up from the first line to the last.
      Lines with no negative price or quantity never add up to a negative total. */
  function ItemsSum(items: seq<CartItem>): (total: real)
    ensures (forall i :: 0 <= i < |items| ==> items[i].price >= 0.0 && items[i].qty >= 0) ==> total >= 0.0
  {
    if items == [] then 0.0 else ItemsSum(items[..|items| - 1]) + LineAmount(items[|items| - 1])
  }

  /** The shipping charge for an unrounded items total: free strictly above 100, 10 otherwise. */
  function ShippingFor(itemsTotal: real): (cost: real)
    ensures cost == 0.0 <==> itemsTotal > 100.0
    ensures cost == 0.0 || cost == 10.0
  {
    if itemsTotal > 100.0 then 0.0 else 10.0
  }

  /** A cart holding `items` and nothing else. */
  function CartOf(items: seq<CartItem>): (c: Cart)
    ensures c.cartItems == items
  {
    Cart(items, ShippingAddress(None, None, None, None), None, None, None, None, None, None, None, None, None)
  }

  /** The cart with its four derived fields written for an unrounded items total, as lines
      18 to 30 of the engine write them; every other field as it was. */
  function WithTotals(c: Cart, itemsTotal: real): (d: Cart)
    ensures d.cartItems == c.cartItems && d.shippingAddress == c.shippingAddress && d.paymentMethod == c.paymentMethod
    ensures d.itemsTotal.Some? && d.shippingCost.Some? && d.taxAmount.Some? && d.grandTotal.Some?
  {
    var shippingCost := ShippingFor(itemsTotal);
    var taxAmount := 0.15 * itemsTotal;
    var grandTotal := itemsTotal + shippingCost + taxAmount;
    c.(itemsTotal := Some(FormatPrice(itemsTotal)),
       shippingCost := Some(FormatPrice(shippingCost)),
       taxAmount := Some(FormatPrice(taxAmount)),
       grandTotal := Some(FormatPrice(grandTotal)))
  }

  /** The cart after `updateShoppingCart`: the derived fields recomputed from its items. */
  function UpdatedCart(c: Cart): (d: Cart)
    ensures d.cartItems == c.cartItems
    ensures d.itemsTotal.Some? && d.shippingCost.Some? && d.taxAmount.Some? && d.grandTotal.Some?
  {
    WithTotals(c, ItemsSum(c.cartItems))
  }

  /** The reduction runs over the lines in order, and the total of a concatenation is the sum
      of the totals of its parts. */
  lemma {:induction false} ItemsSumAppend(a: seq<CartItem>, b: seq<CartItem>)
    ensures ItemsSum(a + b) == ItemsSum(a) + ItemsSum(b)
    decreases |b|
  {
    if b != [] {
      assert (a + b)[..|a + b| - 1] == a + b[..|b| - 1];
      ItemsSumAppend(a, b[..|b| - 1]);
    } else {
      assert a + b == a;
    }
  }

  /** Shipping is free exactly when the unrounded items total is strictly above 100, and
      costs "10.00" otherwise. */
  lemma ShippingThreshold(c: Cart, t: real)
    ensures WithTotals(c, t).shippingCost == Some("0.00") <==> t > 100.0
    ensures t <= 100.0 ==> WithTotals(c, t).shippingCost == Some("10.00")
  {
    assert FormatPrice(0.0) == "0.00";
    assert FormatPrice(10.0) == "10.00";
  }

  /** A cart of exactly 100 still pays shipping; one cent more does not. */
  lemma ShippingBoundary()
    ensures UpdatedCart(CartOf([CartItem("a", "A", "a.jpg", 100.0, 1)])).shippingCost == Some("10.00")
    ensures UpdatedCart(CartOf([CartItem("a", "A", "a.jpg", 100.01, 1)])).shippingCost == Some("0.00")
  {
    var hundred, more := [CartItem("a", "A", "a.jpg", 100.0, 1)], [CartItem("a", "A", "a.jpg", 100.01, 1)];
    assert hundred[..0] == [] && more[..0] == [];
    assert ItemsSum(hundred) == 100.0 && ItemsSum(more) == 100.01;
    ShippingThreshold(CartOf(hundred), 100.0);
    ShippingThreshold(CartOf(more), 100.01);
  }

  /** The tax is 15% of the unrounded items total, rounded once: it can differ from 15% of the
      displayed items total. Here the items show "0.03", their tax "0.01", while 15% of 0.03
      would show "0.00". */
  lemma TaxOnUnroundedTotal()
    ensures var d := UpdatedCart(CartOf([CartItem("a", "A", "a.jpg", 0.034, 1)]));
      d.itemsTotal == Some("0.03") && d.taxAmount == Some("0.01") && FormatPrice(0.15 * 0.03) == "0.00"
  {
    var items := [CartItem("a", "A", "a.jpg", 0.034, 1)];
    assert items[..0] == [];
    assert ItemsSum(items) == 0.034;
    assert FormatPrice(0.034) == "0.03";
    assert FormatPrice(0.15 * 0.034) == "0.01";
  }

  /** The three parts are present and each reads back as its unrounded amount in hundredths,
      rounded once: the items total, the shipping charge and the tax. */
  lemma PartsReadBack(c: Cart, t: real)
    ensures var d := WithTotals(c, t);
      && d.itemsTotal.Some? && ParseFixed2(d.itemsTotal.value) == Some(MathRound(t * 100.0))
      && d.shippingCost.Some? && ParseFixed2(d.shippingCost.value) == Some(MathRound(ShippingFor(t) * 100.0))
      && d.taxAmount.Some? && ParseFixed2(d.taxAmount.value) == Some(MathRound(0.15 * t * 100.0))
  {
    var d := WithTotals(c, t);
    FieldReadsBack(d.itemsTotal, t);
    FieldReadsBack(d.shippingCost, ShippingFor(t));
    FieldReadsBack(d.taxAmount, 0.15 * t);
  }

  /** The grand total is present and reads back as the unrounded sum of the three amounts in
      hundredths, rounded once. */
  lemma GrandTotalReadsBack(c: Cart, t: real)
    ensures var d := WithTotals(c, t);
      && d.grandTotal.Some?
      && ParseFixed2(d.grandTotal.value) == Some(MathRound((t + ShippingFor(t) + 0.15 * t) * 100.0))
  {
    var d := WithTotals(c, t);
    FieldReadsBack(d.grandTotal, t + ShippingFor(t) + 0.15 * t);
  }

  /** A field holding a formatted amount reads back as that amount's rounded hundredths. */
  lemma FieldReadsBack(field: Option<string>, amount: real)
    requires field == Some(FormatPrice(amount))
    ensures field.Some? && ParseFixed2(field.value) == Some(MathRound(amount * 100.0))
  {
    FormatPriceNearest(amount);
  }

  /** The grand total rounds the unrounded sum once, so the hundredths it shows are within
      one of the sum of the hundredths the three parts show, and need not equal it. */
  lemma GrandTotalWithinOneCent(t: real)
    ensures var ship, tax := ShippingFor(t), 0.15 * t;
      -1 <= MathRound((t + ship + tax) * 100.0)
            - (MathRound(t * 100.0) + MathRound(ship * 100.0) + MathRound(tax * 100.0)) <= 1
  {
    var ship, tax := ShippingFor(t), 0.15 * t;
    assert (t + ship + tax) * 100.0 == t * 100.0 + ship * 100.0 + tax * 100.0;
  }

  /** Items "0.02", shipping "10.00" and tax "0.00" add up to 10.02, but the grand total
      shows "10.03". */
  lemma GrandTotalNotSumOfParts()
    ensures var d := UpdatedCart(CartOf([CartItem("a", "A", "a.jpg", 0.024, 1)]));
      d.itemsTotal == Some("0.02") && d.shippingCost == Some("10.00")
      && d.taxAmount == Some("0.00") && d.grandTotal == Some("10.03")
  {
    var items := [CartItem("a", "A", "a.jpg", 0.024, 1)];
    assert items[..0] == [];
    assert ItemsSum(items) == 0.024;
    assert FormatPrice(0.024) == "0.02";
    assert FormatPrice(10.0) == "10.00";
    assert FormatPrice(0.15 * 0.024) == "0.00";
    assert FormatPrice(0.024 + 10.0 + 0.15 * 0.024) == "10.03";
  }

  /** An empty cart: items "0.00", shipping "10.00", tax "0.00", grand total "10.00". */
  lemma EmptyCartTotals(c: Cart)
    requires c.cartItems == []
    ensures UpdatedCart(c).itemsTotal == Some("0.00") && UpdatedCart(c).shippingCost == Some("10.00")
    ensures UpdatedCart(c).taxAmount == Some("0.00") && UpdatedCart(c).grandTotal == Some("10.00")
  {
    assert ItemsSum(c.cartItems) == 0.0;
    assert FormatPrice(0.0) == "0.00";
    assert FormatPrice(10.0) == "10.00";
    assert FormatPrice(0.15 * 0.0) == "0.00";
    assert FormatPrice(0.0 + 10.0 + 0.15 * 0.0) == "10.00";
  }

  /** Recomputing touches only the four derived fields. */
  lemma UpdatedCartFrame(c: Cart)
    ensures UpdatedCart(c).(itemsTotal := c.itemsTotal, shippingCost := c.shippingCost,
      taxAmount := c.taxAmount, grandTotal := c.grandTotal) == c
  {
  }

  /** Writing the same totals twice is writing them once. */
  lemma WithTotalsTwice(c: Cart, t: real)
    ensures WithTotals(WithTotals(c, t), t) == WithTotals(c, t)
  {
  }

  /** Recomputing twice is recomputing once. */
  lemma UpdatedCartIdempotent(c: Cart)
    ensures UpdatedCart(UpdatedCart(c)) == UpdatedCart(c)
  {
    var t := ItemsSum(c.cartItems);
    assert UpdatedCart(c).cartItems == c.cartItems;
    WithTotalsTwice(c, t);
  }

  /** The `reduce` over the cart items that yields the unrounded items total. */
  method ComputeItemsTotal(items: seq<CartItem>) returns (total: real)
    ensures total == ItemsSum(items)
  {
    total := 0.0;
    var i := 0;
    while i < |items|
      invariant 0 <= i <= |items|
      invariant total == ItemsSum(items[..i])
    {
      assert items[..i + 1][..i] == items[..i];
      total := total + (items[i].price * 100.0 * items[i].qty as real) / 100.0;
      i := i + 1;
    }
    assert items[..i] == items;
  }

  /** The browser's local storage, reduced to the one key the totals engine writes. */
  class LocalStorage {
    /** What is stored under the key 'cart'. */
    var cart: Option<Cart>

    constructor ()
      ensures cart == None
    {
      cart := None;
    }
  }

  /** The cart state object that `updateShoppingCart` receives and updates in place. */
  class CartState {
    var cartItems: seq<CartItem>
    var shippingAddress: ShippingAddress
    var paymentMethod: Option<string>
    var itemsTotal: Option<string>
    var shippingCost: Option<string>
    var taxAmount: Option<string>
    var grandTotal: Option<string>
    var itemsPrice: Option<string>
    var shippingPrice: Option<string>
    var taxPrice: Option<string>
    var totalPrice: Option<string>

    constructor (c: Cart)
      ensures Value() == c
    {
      cartItems, shippingAddress, paymentMethod := c.cartItems, c.shippingAddress, c.paymentMethod;
      itemsTotal, shippingCost, taxAmount, grandTotal := c.itemsTotal, c.shippingCost, c.taxAmount, c.grandTotal;
      itemsPrice, shippingPrice, taxPrice, totalPrice := c.itemsPrice, c.shippingPrice, c.taxPrice, c.totalPrice;
    }

    /** The state as a value: what `JSON.stringify` captures of it. */
    function Value(): (c: Cart)
      reads this
    {
      Cart(cartItems, shippingAddress, paymentMethod, itemsTotal, shippingCost, taxAmount, grandTotal,
           itemsPrice, shippingPrice, taxPrice, totalPrice)
    }
  }

  /** The four strings the engine assigns, put in place, make the updated cart. */
  lemma AssignedTotals(state: CartState, before: Cart, itemsTotal: real, shippingCost: real, taxAmount: real,
                       grandTotal: real)
    requires itemsTotal == ItemsSum(before.cartItems)
    requires shippingCost == (if itemsTotal > 100.0 then 0.0 else 10.0)
    requires taxAmount == 0.15 * itemsTotal
    requires grandTotal == itemsTotal + shippingCost + taxAmount
    requires state.itemsTotal == Some(FormatPrice(itemsTotal)) && state.shippingCost == Some(FormatPrice(shippingCost))
    requires state.taxAmount == Some(FormatPrice(taxAmount)) && state.grandTotal == Some(FormatPrice(grandTotal))
    requires before == state.Value().(itemsTotal := before.itemsTotal, shippingCost := before.shippingCost,
                                      taxAmount := before.taxAmount, grandTotal := before.grandTotal)
    ensures state.Value() == UpdatedCart(before)
  {
    assert shippingCost == ShippingFor(itemsTotal);
  }

  /** `updateShoppingCart(state)`: assigns the four derived fields and nothing else, stores a
      snapshot of the whole updated state, and returns the same object. */
  method UpdateShoppingCart(state: CartState, storage: LocalStorage) returns (r: CartState)
    modifies state`itemsTotal, state`shippingCost, state`taxAmount, state`grandTotal, storage`cart
    ensures r == state
    ensures state.Value() == UpdatedCart(old(state.Value()))
    ensures storage.cart == Some(state.Value())
  {
    ghost var before := state.Value();
    var itemsTotal := ComputeItemsTotal(state.cartItems);
    state.itemsTotal := Some(FormatPrice(itemsTotal));

    var shippingCost := if itemsTotal > 100.0 then 0.0 else 10.0;
    state.shippingCost := Some(FormatPrice(shippingCost));

    var taxAmount := 0.15 * itemsTotal;
    state.taxAmount := Some(FormatPrice(taxAmount));

    var grandTotal := itemsTotal + shippingCost + taxAmount;
    state.grandTotal := Some(FormatPrice(grandTotal));

    AssignedTotals(state, before, itemsTotal, shippingCost, taxAmount, grandTotal);
    storage.cart := Some(state.Value());
    r := state;
  }
}
