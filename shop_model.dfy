/**
 * Product pricing: the original ("was") price derived from a modifier, the
 * whole-percent discount shown against it, and `save`, which stores the former.
 * Decimal amounts are modelled as exact reals.
 */
module ShopModel {
  import opened Common

  /** Python's `int()` on a number: truncation toward zero. */
  function Trunc(x: real): (n: int)
    ensures x >= 0.0 ==> n >= 0 && n as real <= x < n as real + 1.0
    ensures x < 0.0 ==> n <= 0 && n as real - 1.0 < x <= n as real
  {
    if x >= 0.0 then x.Floor else -((-x).Floor)
  }

  /**
   * `calculate_original_price`: a positive modifier multiplies or is added to
   * the price; type "none", any other type, or a modifier not above zero gives
   * no original price.
   */
  function OriginalPrice(price: real, modifierType: string, modifierValue: real): (r: Option<real>)
    ensures r.Some? <==> (modifierType == "multiply" || modifierType == "add") && modifierValue > 0.0
    ensures r.Some? && modifierType == "multiply" ==> r.value == price * modifierValue
    ensures r.Some? && modifierType == "add" ==> r.value == price + modifierValue
  {
    if modifierType == "multiply" && modifierValue > 0.0 then Some(price * modifierValue)
    else if modifierType == "add" && modifierValue > 0.0 then Some(price + modifierValue)
    else None
  }

  /**
   * `calculate_discount`: the whole percentage by which the original price
   * exceeds the price, or 0 when there is no original price, it is zero
   * (falsy), or it does not exceed the price.
   */
  function Discount(price: real, modifierType: string, modifierValue: real): (d: int)
    ensures var o := OriginalPrice(price, modifierType, modifierValue);
      d != 0 ==> o.Some? && o.value != 0.0 && o.value > price
    ensures var o := OriginalPrice(price, modifierType, modifierValue);
      o.Some? && o.value != 0.0 && o.value > price ==> d == Trunc((o.value - price) / o.value * 100.0)
    ensures price >= 0.0 ==> 0 <= d <= 100
    ensures var o := OriginalPrice(price, modifierType, modifierValue);
      price >= 0.0 && o.Some? && o.value > price ==>
        d as real <= (o.value - price) / o.value * 100.0 < d as real + 1.0
  {
    var original := OriginalPrice(price, modifierType, modifierValue);
    if original.Some? && original.value != 0.0 && original.value > price then
      var o := original.value;
      PercentBelowHundred(o, price);
      Trunc((o - price) / o * 100.0)
    else 0
  }

  /** For 0 <= price < o, the markdown percentage lies in [0, 100]. */
  lemma PercentBelowHundred(o: real, price: real)
    requires 0.0 <= price < o || (price < 0.0 && price < o && o != 0.0)
    ensures 0.0 <= price ==> 0.0 < (o - price) / o * 100.0 <= 100.0
  {
    if 0.0 <= price {
      assert (o - price) / o <= 1.0;
    }
  }

  /**
   * With a multiplying modifier, the discount depends on the modifier alone:
   * every positive price shows the same percentage.
   */
  lemma MultiplyDiscountIgnoresPrice(p1: real, p2: real, factor: real)
    requires p1 > 0.0 && p2 > 0.0
    ensures Discount(p1, "multiply", factor) == Discount(p2, "multiply", factor)
  {
    MultiplyDiscount(p1, factor);
    MultiplyDiscount(p2, factor);
  }

  /** The multiplying modifier's discount for a positive price, in terms of the factor. */
  lemma MultiplyDiscount(price: real, factor: real)
    requires price > 0.0
    ensures Discount(price, "multiply", factor) == if factor > 1.0 then Trunc((factor - 1.0) / factor * 100.0) else 0
  {
    if factor > 1.0 {
      var o := price * factor;
      assert o > price by { assert price * factor - price == price * (factor - 1.0); }
      CancelCommonFactor(o - price, o, price, factor - 1.0, factor);
      assert OriginalPrice(price, "multiply", factor) == Some(o);
      assert Discount(price, "multiply", factor) == Trunc((o - price) / o * 100.0);
    } else if factor > 0.0 {
      assert price * factor <= price;
    }
  }

  /** x / y == a / b when x and y are a and b scaled by the same non-zero p. */
  lemma CancelCommonFactor(x: real, y: real, p: real, a: real, b: real)
    requires p != 0.0 && b != 0.0 && x == p * a && y == p * b
    ensures x / y == a / b
  {
    assert y * (a / b) == p * a;
  }

  /** A factor of at most 1, however the price is set, never shows a discount for a positive price. */
  lemma SmallFactorNoDiscount(price: real, factor: real)
    requires price > 0.0 && factor <= 1.0
    ensures Discount(price, "multiply", factor) == 0
  {
    MultiplyDiscount(price, factor);
  }

  class Product {
    var name: string
    var slug: string
    var price: real
    var originalPrice: Option<real>
    var modifierType: string
    var modifierValue: real

    constructor (name: string, slug: string, price: real, modifierType: string, modifierValue: real)
      ensures this.name == name && this.slug == slug && this.price == price
      ensures this.modifierType == modifierType && this.modifierValue == modifierValue
      ensures originalPrice == None
    {
      this.name := name;
      this.slug := slug;
      this.price := price;
      this.modifierType := modifierType;
      this.modifierValue := modifierValue;
      originalPrice := None;
    }

    /** `Product.save`: defaults the slug and stores the computed original price. */
    method Save(slugify: string -> string)
      modifies this`slug, this`originalPrice
      ensures old(slug) != [] ==> slug == old(slug)
      ensures old(slug) == [] ==> slug == slugify(name)
      ensures originalPrice == OriginalPrice(price, modifierType, modifierValue)
    {
      if slug == [] {
        slug := slugify(name);
      }
      originalPrice := OriginalPrice(price, modifierType, modifierValue);
    }
  }
}
