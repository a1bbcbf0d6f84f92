/**
 * Price arithmetic of ProductCatalogApi/Services/PriceCalculationService.cs on
 * exact decimals: a percentage discount guarded against out-of-range
 * percentages, the total of a basket given quantities by product id, and VAT.
 */
module PriceCalculation {
  import opened Wrappers
  import opened Sequences
  import opened CatalogModels

  /** The `ArgumentException` an out-of-range discount throws. */
  datatype PriceError = DiscountOutOfRange

  /** `CalculateDiscountedPrice`: refused outside 0..100 percent, else the price less that percentage. */
  function DiscountedPrice(product: CatalogProduct, discountPercentage: real): (r: Result<real, PriceError>)
    ensures r.Failure? <==> discountPercentage < 0.0 || discountPercentage > 100.0
    ensures r.Success? ==> r.value == product.price - product.price * discountPercentage / 100.0
  {
    if discountPercentage < 0.0 || discountPercentage > 100.0 then Failure(DiscountOutOfRange)
    else Success(product.price * (1.0 - discountPercentage / 100.0))
  }

  /** No discount leaves the price; a full discount makes it free. */
  lemma DiscountEndpoints(product: CatalogProduct)
    ensures DiscountedPrice(product, 0.0) == Success(product.price)
    ensures DiscountedPrice(product, 100.0) == Success(0.0)
  {
  }

  /** For a non-negative price the discounted price lies between nothing and the full price. */
  lemma DiscountWithinPrice(product: CatalogProduct, d: real)
    requires product.price >= 0.0 && 0.0 <= d <= 100.0
    ensures 0.0 <= DiscountedPrice(product, d).value <= product.price
  {
    var cut := product.price * d / 100.0;
    assert 0.0 <= cut <= product.price by {
      MultiplyBetween(product.price, d / 100.0);
    }
  }

  /** A larger discount never gives a higher price. */
  lemma DiscountMonotonic(product: CatalogProduct, d1: real, d2: real)
    requires product.price >= 0.0 && 0.0 <= d1 <= d2 <= 100.0
    ensures DiscountedPrice(product, d2).value <= DiscountedPrice(product, d1).value
  {
    var gap := product.price * ((d2 - d1) / 100.0);
    assert gap >= 0.0 by {
      MultiplyNonNegative(product.price, (d2 - d1) / 100.0);
    }
    assert product.price * d2 / 100.0 == product.price * d1 / 100.0 + gap;
  }

  lemma MultiplyBetween(a: real, f: real)
    requires a >= 0.0 && 0.0 <= f <= 1.0
    ensures 0.0 <= a * f <= a
  {
    MultiplyNonNegative(a, f);
    MultiplyNonNegative(a, 1.0 - f);
  }

  lemma MultiplyNonNegative(a: real, b: real)
    requires a >= 0.0 && b >= 0.0
    ensures a * b >= 0.0
  {
  }

  /** What one product adds to the basket: its price times its quantity, or nothing without a quantity. */
  function LineAmount(product: CatalogProduct, quantities: map<int, int>): real {
    if product.id in quantities then product.price * quantities[product.id] as real else 0.0
  }

  /** The basket total, summed in enumeration order. */
  function BasketTotal(products: seq<CatalogProduct>, quantities: map<int, int>): real {
    if products == [] then 0.0
    else BasketTotal(products[..|products| - 1], quantities) + LineAmount(products[|products| - 1], quantities)
  }

  /** `CalculateTotalPrice`: the `foreach` accumulating `total`. */
  method CalculateTotalPrice(products: seq<CatalogProduct>, quantities: map<int, int>) returns (total: real)
    ensures total == BasketTotal(products, quantities)
  {
    total := 0.0;
    var i := 0;
    while i < |products|
      invariant 0 <= i <= |products|
      invariant total == BasketTotal(products[..i], quantities)
    {
      assert products[..i + 1][..i] == products[..i];
      var product := products[i];
      if product.id in quantities {
        var quantity := quantities[product.id];
        total := total + product.price * quantity as real;
      }
      i := i + 1;
    }
    assert products[..i] == products;
  }

  /** The total of two runs of products is the sum of their totals. */
  lemma {:induction false} BasketTotalAppend(a: seq<CatalogProduct>, b: seq<CatalogProduct>, quantities: map<int, int>)
    ensures BasketTotal(a + b, quantities) == BasketTotal(a, quantities) + BasketTotal(b, quantities)
    decreases |b|
  {
    if b != [] {
      var init := b[..|b| - 1];
      BasketTotalAppend(a, init, quantities);
      assert (a + b)[..|a + b| - 1] == a + init;
    } else {
      assert a + b == a;
    }
  }

  /** A product listed twice is counted twice. */
  lemma RepeatedProductCountedTwice(products: seq<CatalogProduct>, p: CatalogProduct, quantities: map<int, int>)
    ensures BasketTotal(products + [p, p], quantities) == BasketTotal(products, quantities) + 2.0 * LineAmount(p, quantities)
  {
    BasketTotalAppend(products, [p, p], quantities);
    assert [p][..0] == [];
    assert BasketTotal([p], quantities) == LineAmount(p, quantities);
    assert [p, p][..1] == [p];
    assert BasketTotal([p, p], quantities) == 2.0 * LineAmount(p, quantities);
  }

  /** Products without a quantity contribute nothing: the total is that of the products that have one. */
  lemma {:induction false} UnlistedProductsIgnored(products: seq<CatalogProduct>, quantities: map<int, int>)
    ensures BasketTotal(products, quantities) == BasketTotal(Filter(products, (p: CatalogProduct) => p.id in quantities), quantities)
  {
    if products != [] {
      var head := products[0];
      var rest := products[1..];
      UnlistedProductsIgnored(rest, quantities);
      assert products == [head] + rest;
      BasketTotalAppend([head], rest, quantities);
      var keptRest := Filter(rest, (p: CatalogProduct) => p.id in quantities);
      if head.id in quantities {
        BasketTotalAppend([head], keptRest, quantities);
      }
    }
  }

  /** The default VAT rate, 17%. */
  const DefaultVatRate: real := 0.17

  /** `CalculateVat`: the price times the rate, 17% when none is given. */
  function Vat(price: real, vatRate: Option<real>): (r: real)
    ensures vatRate.None? ==> r == price * DefaultVatRate
  {
    price * vatRate.GetOr(DefaultVatRate)
  }

  /** VAT on a basket is the sum of the VAT on its runs. */
  lemma VatDistributes(a: seq<CatalogProduct>, b: seq<CatalogProduct>, quantities: map<int, int>, vatRate: Option<real>)
    ensures Vat(BasketTotal(a + b, quantities), vatRate) == Vat(BasketTotal(a, quantities), vatRate) + Vat(BasketTotal(b, quantities), vatRate)
  {
    BasketTotalAppend(a, b, quantities);
  }
}
