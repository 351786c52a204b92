/**
 * Call sequences from GroceryMarketLibraryTests.cs stated against the terminal
 * itself, from whatever state the terminal is in.
 */
module Scenarios {
  import opened Wrappers
  import opened ScanTally
  import opened Pricing
  import opened Products
  import opened Terminal

  /**
   * Test 12: with the code list A, B, scanning A and B succeeds and scanning
   * C, which no product carries, is refused and not counted.
   */
  method ScanKnownAndUnknown(terminal: PointOfSaleTerminal) returns (ra: int, rb: int, rc: int)
    requires terminal.Valid() && terminal.productCodeList == Some(["A", "B"])
    modifies terminal`scanned
    ensures ra == 1 && rb == 1 && rc == 0
    ensures terminal.scanned == Record(Record(old(terminal.scanned), "A"), "B")
  {
    ra := terminal.ScanProduct("A");
    rb := terminal.ScanProduct("B");
    rc := terminal.ScanProduct("C");
  }

  /**
   * Test 11: pricing A with a bulk deal and B with the defaults; B then reads
   * as a bulk of one at its unit price.
   */
  method PriceTwoProducts(terminal: PointOfSaleTerminal)
    requires terminal.productList.Some?
    requires "A" in Codes(terminal.productList.value) && "B" in Codes(terminal.productList.value)
    modifies Lookup(terminal.productList.value, "A"), Lookup(terminal.productList.value, "B")
    ensures var prices := PriceList(terminal.productList.value);
      && "A" in prices && prices["A"] == Price(1.25, 3, 3.0)
      && "B" in prices && prices["B"] == Price(4.25, 1, 4.25)
  {
    var ra := terminal.SetPricing("A", 1.25, 3, 3.0);
    var rb := terminal.SetPricing("B", 4.25);
  }

  /**
   * Ringing up twice with no scan in between: the first call charges the
   * accumulator, the second charges nothing.
   */
  method RingUpTwice(terminal: PointOfSaleTerminal) returns (first: real, second: real)
    requires terminal.Valid() && (terminal.productList.Some? || terminal.scanned.keys == [])
    requires Priceable(PriceList(terminal.Listed()), terminal.scanned.keys)
    modifies terminal`scanned
    ensures first == old(Total(PriceList(terminal.Listed()), terminal.scanned.keys, terminal.scanned.counts))
    ensures second == 0.0 && terminal.scanned == Empty
  {
    first := terminal.CalculateTotal();
    second := terminal.CalculateTotal();
  }

  /** A terminal that was never given a product list rings up 0. */
  method RingUpFresh() returns (total: real)
    ensures total == 0.0
  {
    var terminal := new PointOfSaleTerminal();
    total := terminal.CalculateTotal();
  }

  /**
   * Tests 13 to 16 scan a basket code by code into an empty accumulator: when
   * every code is on the code list, every scan is counted and the accumulator
   * ends up as the tally of the whole basket.
   */
  method ScanAll(terminal: PointOfSaleTerminal, codes: seq<string>)
    requires terminal.Valid() && terminal.scanned == Empty && terminal.productCodeList.Some?
    requires forall c :: c in codes ==> c in terminal.productCodeList.value
    modifies terminal`scanned
    ensures terminal.Valid() && terminal.scanned == Tallied(codes)
  {
    for i := 0 to |codes|
      invariant terminal.Valid() && terminal.scanned == Tallied(codes[..i])
    {
      var code := codes[i];
      var done := terminal.ScanProduct(code);
      assert done == 1;
      assert codes[..i + 1][..i] == codes[..i];
    }
    assert codes[..|codes|] == codes;
  }
}
