/** Money: a product's own discount, the cart subtotal, and the promo
    discount taken off it. Amounts are exact rationals; the browser's
    floating-point rounding is not modelled. */
module Pricing {
  import opened Wrappers
  import opened Catalog
  import opened Promo

  /** The storefront tests the discount for truthiness, so an absent
      discount and a discount of 0 both mean "no discount". */
  predicate HasDiscount(p: Product) {
    p.discount.Some? && p.discount.value != 0
  }

  /** A product whose price and discount are sensible: a non-negative
      price and, if present, a discount of at most 100 percent. */
  predicate WellPriced(p: Product) {
    p.price >= 0 && (p.discount.None? || 0 <= p.discount.value <= 100)
  }

  /** The price of one item of `p` after its own discount. */
  function CalculatePrice(p: Product): (r: real)
    ensures !HasDiscount(p) ==> r == p.price as real
    ensures HasDiscount(p) ==> r == (p.price * (100 - p.discount.value)) as real / 100.0
    ensures WellPriced(p) ==> 0.0 <= r <= p.price as real
  {
    var basePrice := p.price as real;
    var discountAmount := if HasDiscount(p) then basePrice * p.discount.value as real / 100.0 else 0.0;
    basePrice - discountAmount
  }

  function LineTotal(item: CartItem): real {
    CalculatePrice(item.product) * item.quantity as real
  }

  /** A cart whose every line is well priced and has a non-negative quantity. */
  predicate WellPricedCart(cart: seq<CartItem>) {
    forall i :: 0 <= i < |cart| ==> WellPriced(cart[i].product) && cart[i].quantity >= 0
  }

  /** The cart subtotal, summed left to right as the storefront's `reduce` does. */
  function CartTotal(cart: seq<CartItem>): (r: real)
    ensures cart == [] ==> r == 0.0
    ensures WellPricedCart(cart) ==> r >= 0.0
  {
    if |cart| == 0 then 0.0
    else
      assert WellPricedCart(cart) ==> WellPricedCart(cart[..|cart| - 1]);
      CartTotal(cart[..|cart| - 1]) + LineTotal(cart[|cart| - 1])
  }

  /** The amount the applied promo takes off `subtotal`. */
  function PromoDiscount(subtotal: real, applied: Option<AppliedPromo>): (r: real)
    ensures applied.None? ==> r == 0.0
    ensures applied.Some? && 0 <= applied.value.discount <= 100 && subtotal >= 0.0 ==> 0.0 <= r <= subtotal
  {
    if applied.Some? then subtotal * applied.value.discount as real / 100.0 else 0.0
  }

  /** What the customer pays: the subtotal less the promo discount. */
  function FinalTotal(subtotal: real, applied: Option<AppliedPromo>): (r: real)
    ensures applied.None? ==> r == subtotal
    ensures applied.Some? ==> r == subtotal * (100 - applied.value.discount) as real / 100.0
    ensures applied.Some? && 0 <= applied.value.discount <= 100 && subtotal >= 0.0 ==> 0.0 <= r <= subtotal
  {
    subtotal - PromoDiscount(subtotal, applied)
  }

  /** The subtotal of two carts laid end to end is the sum of their subtotals. */
  lemma {:induction false} CartTotalAppend(a: seq<CartItem>, b: seq<CartItem>)
    ensures CartTotal(a + b) == CartTotal(a) + CartTotal(b)
  {
    if |b| == 0 {
      assert a + b == a;
    } else {
      var b' := b[..|b| - 1];
      assert (a + b)[..|a + b| - 1] == a + b';
      CartTotalAppend(a, b');
    }
  }

  /** The subtotal does not depend on the order of the cart lines. */
  lemma {:induction false} CartTotalPermutation(a: seq<CartItem>, b: seq<CartItem>)
    requires multiset(a) == multiset(b)
    ensures CartTotal(a) == CartTotal(b)
    decreases |a|
  {
    if |a| == 0 {
      assert |multiset(b)| == 0;
    } else {
      var x := a[0];
      assert x in multiset(b);
      var i :| 0 <= i < |b| && b[i] == x;
      var rest := b[..i] + b[i + 1..];
      assert b == b[..i] + [x] + b[i + 1..];
      assert a == [x] + a[1..];
      assert multiset(b) == multiset(b[..i]) + multiset{x} + multiset(b[i + 1..]);
      assert multiset(a) == multiset{x} + multiset(a[1..]);
      assert multiset(rest) == multiset(b[..i]) + multiset(b[i + 1..]);
      assert multiset(a[1..]) == multiset(a) - multiset{x};
      assert multiset(rest) == multiset(b) - multiset{x};
      CartTotalPermutation(a[1..], rest);
      CartTotalAppend([x], a[1..]);
      CartTotalAppend(b[..i] + [x], b[i + 1..]);
      CartTotalAppend(b[..i], [x]);
      CartTotalAppend(b[..i], b[i + 1..]);
      assert CartTotal([x]) == LineTotal(x) by {
        assert [x][..0] == [];
      }
    }
  }

  /** Replacing one line changes the subtotal by exactly the difference of
      the two line totals. */
  lemma CartTotalUpdate(cart: seq<CartItem>, i: nat, x: CartItem)
    requires i < |cart|
    ensures CartTotal(cart[i := x]) == CartTotal(cart) - LineTotal(cart[i]) + LineTotal(x)
  {
    var pre, post := cart[..i], cart[i + 1..];
    assert cart == pre + [cart[i]] + post;
    assert cart[i := x] == pre + [x] + post;
    CartTotalAppend(pre + [cart[i]], post);
    CartTotalAppend(pre + [x], post);
    CartTotalAppend(pre, [cart[i]]);
    CartTotalAppend(pre, [x]);
    assert [x][..0] == [] && [cart[i]][..0] == [];
  }

  /** Every product of the shipped catalog is well priced. */
  lemma CatalogWellPriced()
    ensures forall i :: 0 <= i < |Products| ==> WellPriced(Products[i])
  {
  }

  /** The discount of the first sample order: 4500 at 10 percent costs 4050. */
  lemma MountainDawnPrice()
    ensures CalculatePrice(MountainDawn) == 4050.0
    ensures CartTotal([CartItem(MountainDawn, "3x4м", "Флизелин", 1)]) == 4050.0
  {
  }

  /** The discount of the second sample order: 4800 at 15 percent costs 4080. */
  lemma CityLightsPrice()
    ensures CalculatePrice(CityLights) == 4080.0
    ensures CartTotal([CartItem(CityLights, "2x3м", "Винил", 1)]) == 4080.0
  {
  }

  /** The promo percentages applied to round subtotals. */
  lemma PromoExamples()
    ensures PromoDiscount(4500.0, ApplyCode("WELCOME10", None)) == 450.0
    ensures FinalTotal(4500.0, ApplyCode("WELCOME10", None)) == 4050.0
    ensures PromoDiscount(4800.0, ApplyCode("LOYAL20", None)) == 960.0
    ensures FinalTotal(4800.0, ApplyCode("LOYAL20", None)) == 3840.0
  {
  }
}
