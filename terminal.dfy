/**
 * The point-of-sale terminal (PointOfSaleTerminal.cs): it holds a product
 * list and the list of its codes, counts scanned codes in an accumulator and
 * rings them up. Every operation changes the terminal's fields in place; the
 * products in its list are the caller's own objects, shared and not copied.
 */
module Terminal {
  import opened Wrappers
  import opened Lists
  import opened Products
  import opened ScanTally
  import opened Pricing

  class PointOfSaleTerminal {
    /** `_productList`: null until `SetProductList` runs. */
    var productList: Option<seq<Product>>
    /** `_productCodeList`: the codes of `productList`, taken when it was set. */
    var productCodeList: Option<seq<string>>
    /** `_scannedProductCodes`: code to count, in first-scan order. */
    var scanned: Tally
    /** `TerminalCode`: a label with no behaviour of its own. */
    var terminalCode: Option<string>

    /** The accumulator is well formed. */
    ghost predicate Valid()
      reads this
    {
      scanned.Valid()
    }

    /** The products the terminal prices against: none before `SetProductList`. */
    function Listed(): (ps: seq<Product>)
      reads this
      ensures productList.Some? ==> ps == productList.value
      ensures productList.None? ==> ps == []
    {
      if productList.Some? then productList.value else []
    }

    /** A new terminal has no lists yet and an empty accumulator. */
    constructor ()
      ensures productList == None && productCodeList == None && terminalCode == None
      ensures scanned == Empty && Valid()
    {
      productList := None;
      productCodeList := None;
      scanned := Empty;
      terminalCode := None;
    }

    method SetTerminalCode(c: Option<string>)
      modifies this`terminalCode
      ensures terminalCode == c
    {
      terminalCode := c;
    }

    /**
     * Fills two fresh lists from `products`: the products themselves (the same
     * objects, in the same order) and their codes. The set-difference check that
     * follows compares the copy with the argument; it always passes, so the
     * rollback to null never happens and the result is always 1. The
     * accumulator and the terminal code are not touched.
     */
    method SetProductList(products: seq<Product>) returns (done: int)
      modifies this`productList, this`productCodeList
      ensures done == 1
      ensures productList == Some(products)
      ensures productCodeList == Some(Codes(products))
      ensures scanned == old(scanned) && terminalCode == old(terminalCode)
    {
      done := 0;
      productList := Some([]);
      productCodeList := Some([]);
      for i := 0 to |products|
        invariant productList == Some(products[..i])
        invariant productCodeList == Some(Codes(products[..i]))
      {
        assert products[..i + 1] == products[..i] + [products[i]];
        productList := Some(productList.value + [products[i]]);
        productCodeList := Some(productCodeList.value + [products[i].code]);
      }
      assert products[..|products|] == products;
      var verified := SameElements(products, productList.value);
      done := if verified then 1 else 0;
      productList := if verified then productList else None;
    }

    /**
     * A fresh list holding the terminal's products in order. The same check as
     * in `SetProductList` guards it and always passes, so the result is never
     * null. Nothing in the terminal changes.
     */
    method GetProductList() returns (r: Option<seq<Product>>)
      requires productList.Some?
      ensures r == productList
    {
      var source := productList.value;
      var copy: seq<Product> := [];
      for i := 0 to |source|
        invariant copy == source[..i]
      {
        copy := copy + [source[i]];
      }
      assert copy == source;
      var verified := SameElements(copy, source);
      r := if verified then Some(copy) else None;
    }

    /**
     * Writes the price parameters into the first product of the list carrying
     * `code`. A bulk quantity of 1 with a bulk price of 0 (the defaults) means
     * no bulk deal, stored as a bulk price equal to the unit price. That
     * product's code and name, every other product and the terminal itself stay
     * as they were, so the list now prices `code` as given and every other code
     * as before.
     */
    method SetPricing(code: string, unitPrice: real, bulkQty: int := 1, bulkPrice: real := 0.0) returns (done: int)
      requires productList.Some? && code in Codes(productList.value)
      modifies Lookup(productList.value, code)
      ensures done == 1
      ensures Codes(productList.value) == old(Codes(productList.value))
      ensures var stored := if bulkPrice == 0.0 && bulkQty == 1 then unitPrice else bulkPrice;
        PriceList(productList.value) == old(PriceList(productList.value))[code := Price(unitPrice, bulkQty, stored)]
      ensures var p := old(Lookup(productList.value, code));
        Lookup(productList.value, code) == p && p.code == code && p.name == old(p.name)
    ensures var p := old(Lookup(productList.value, code));
      var stored := if bulkPrice == 0.0 && bulkQty == 1 then unitPrice else bulkPrice;
        p.unitPrice == unitPrice && p.bulkQty == bulkQty && p.bulkPrice == stored
    {
      var effectiveBulkPrice := bulkPrice;
      if bulkPrice == 0.0 && bulkQty == 1 {
        effectiveBulkPrice := unitPrice;
      }
      var ps := productList.value;
      var product := Lookup(ps, code);
      ghost var before := PriceList(ps);
      product.unitPrice := unitPrice;
      product.bulkQty := bulkQty;
      product.bulkPrice := effectiveBulkPrice;
      done := 1;
      CodesKept(ps);
      assert Lookup(ps, code) == product && product.name == old(product.name);
      ghost var after := PriceList(ps);
      ghost var expected := before[code := PriceOf(product)];
      forall c | c in Codes(ps)
        ensures c in after && c in expected && after[c] == expected[c]
      {
        PriceListAt(ps, c);
        var k := FirstIndex(Codes(ps), c);
        assert old(Lookup(ps, c)) == ps[k];
      }
      SameMap(after, expected);
    }

    /**
     * Counts one scan of `code` if the code list knows it (result 1), and
     * otherwise leaves the accumulator alone (result 0).
     */
    method ScanProduct(code: string) returns (done: int)
      requires Valid() && productCodeList.Some?
      modifies this`scanned
      ensures Valid()
      ensures done == if code in productCodeList.value then 1 else 0
      ensures scanned == if done == 1 then Record(old(scanned), code) else old(scanned)
    {
      done := 0;
      if code !in productCodeList.value {
        return;
      }
      RecordKeepsValid(scanned, code);
      if code in scanned.counts {
        scanned := Tally(scanned.keys, scanned.counts[code := scanned.counts[code] + 1]);
        done := 1;
      } else {
        scanned := Tally(scanned.keys + [code], scanned.counts[code := 1]);
        done := 1;
      }
    }

    /**
     * Rings up the accumulator in first-scan order, each code priced by the
     * first product carrying it, then empties the accumulator, so an immediate
     * second call returns 0. Every scanned code must have a product whose bulk
     * quantity is not zero: otherwise the C# code faults. A terminal that never
     * had a product list has scanned nothing and rings up 0.
     */
    method CalculateTotal() returns (total: real)
      requires Valid() && (productList.Some? || scanned.keys == [])
      requires Priceable(PriceList(Listed()), scanned.keys)
      modifies this`scanned
      ensures total == old(Total(PriceList(Listed()), scanned.keys, scanned.counts))
      ensures scanned == Empty && Valid()
    {
      total := PriceScans(Listed(), scanned);
      scanned := Empty;
    }
  }

  /**
   * The loop of `CalculateTotal`: each code in accumulator order is priced by
   * the first product carrying it, and the line costs are summed. It reads the
   * products and changes nothing.
   */
  method PriceScans(ps: seq<Product>, entries: Tally) returns (total: real)
    requires (forall k :: k in entries.keys ==> k in entries.counts) && Priceable(PriceList(ps), entries.keys)
    ensures total == Total(PriceList(ps), entries.keys, entries.counts)
  {
    ghost var prices := PriceList(ps);
    total := 0.0;
    for i := 0 to |entries.keys|
      invariant Priceable(prices, entries.keys[..i])
      invariant total == Total(prices, entries.keys[..i], entries.counts)
    {
      TotalStep(prices, entries.keys, entries.counts, i);
      var code := entries.keys[i];
      PriceListAt(ps, code);
      var product := Lookup(ps, code);
      var qty := entries.counts[code];
      total := total + LineCost(qty, product.unitPrice, product.bulkQty, product.bulkPrice);
    }
    assert entries.keys[..|entries.keys|] == entries.keys;
  }
}
