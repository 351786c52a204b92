/**
 * The checkout scenarios of the library's tests (GroceryMarketLibraryTests.cs,
 * tests 14 to 16): four products A, B, C and D priced as
 *   A: 1.25 each, 3 for 3.00;  B: 4.25 each;  C: 1.00 each, 6 for 5.00;  D: 0.75 each,
 * and a basket scanned in a given order.
 */
module Checkout {
  import opened ScanTally
  import opened Pricing

  /** The prices the tests set with `SetPricing`; B and D take the no-bulk default. */
  function TestPrices(a: string, b: string, c: string, d: string): map<string, Price>
  {
    map[a := Price(1.25, 3, 3.0), b := Price(4.25, 1, 4.25), c := Price(1.0, 6, 5.0), d := Price(0.75, 1, 0.75)]
  }

  /** The total of four distinct codes listed once each, in that order. */
  lemma TotalOfFour(prices: map<string, Price>, a: string, b: string, c: string, d: string, counts: map<string, int>)
    requires Priceable(prices, [a, b, c, d])
    requires a in counts && b in counts && c in counts && d in counts
    ensures var pa, pb, pc, pd := prices[a], prices[b], prices[c], prices[d];
      Total(prices, [a, b, c, d], counts) ==
        LineCost(counts[a], pa.unitPrice, pa.bulkQty, pa.bulkPrice) + LineCost(counts[b], pb.unitPrice, pb.bulkQty, pb.bulkPrice) +
        LineCost(counts[c], pc.unitPrice, pc.bulkQty, pc.bulkPrice) + LineCost(counts[d], pd.unitPrice, pd.bulkQty, pd.bulkPrice)
  {
    TotalAppend(prices, [a, b, c], counts, d);
    assert [a, b, c] + [d] == [a, b, c, d];
    TotalAppend(prices, [a, b], counts, c);
    assert [a, b] + [c] == [a, b, c];
    TotalAppend(prices, [a], counts, b);
    assert [a] + [b] == [a, b];
    TotalAppend(prices, [], counts, a);
    assert [] + [a] == [a];
  }

  /** Test 14: A, B, C, D, A, B, A rings up 3.00 + 8.50 + 1.00 + 0.75 = 13.25. */
  lemma MixedBasketTotal(a: string, b: string, c: string, d: string)
    requires a != b && a != c && a != d && b != c && b != d && c != d
    ensures var prices, t := TestPrices(a, b, c, d), Tallied([a, b, c, d, a, b, a]);
      t.Valid() && Priceable(prices, t.keys) && Total(prices, t.keys, t.counts) == 13.25
  {
    var prices, t := TestPrices(a, b, c, d), Tallied([a, b, c, d, a, b, a]);
    ScanOrderExample(a, b, c, d);
    TalliedValid([a, b, c, d, a, b, a]);
    assert t.counts[a] == 3 && t.counts[b] == 2 && t.counts[c] == 1 && t.counts[d] == 1;
    assert prices[a] == Price(1.25, 3, 3.0) && prices[b] == Price(4.25, 1, 4.25);
    assert prices[c] == Price(1.0, 6, 5.0) && prices[d] == Price(0.75, 1, 0.75);
    TotalOfFour(prices, a, b, c, d, t.counts);
    assert LineCost(3, 1.25, 3, 3.0) == 3.0 && LineCost(2, 4.25, 1, 4.25) == 8.5;
    assert LineCost(1, 1.0, 6, 5.0) == 1.0 && LineCost(1, 0.75, 1, 0.75) == 0.75;
  }

  /** Test 15: seven C's are one bulk of six at 5.00 and one at 1.00, 6.00 in all. */
  lemma BulkBasketTotal(a: string, b: string, c: string, d: string)
    requires a != b && a != c && a != d && b != c && b != d && c != d
    ensures var prices, t := TestPrices(a, b, c, d), Tallied([c, c, c, c, c, c, c]);
      t.Valid() && Priceable(prices, t.keys) && Total(prices, t.keys, t.counts) == 6.0
  {
    assert [c, c, c, c, c, c, c] == seq(7, _ => c);
    TalliedRepeated(c, 7);
    assert [c][..0] == [];
  }

  /** Test 16: A, B, C, D once each is 1.25 + 4.25 + 1.00 + 0.75 = 7.25, with no bulk reached. */
  lemma SingleEachTotal(a: string, b: string, c: string, d: string)
    requires a != b && a != c && a != d && b != c && b != d && c != d
    ensures var prices, t := TestPrices(a, b, c, d), Tallied([a, b, c, d]);
      t.Valid() && Priceable(prices, t.keys) && Total(prices, t.keys, t.counts) == 7.25
  {
    var prices, t := TestPrices(a, b, c, d), Tallied([a, b, c, d]);
    ScanDistinctExample(a, b, c, d);
    TalliedValid([a, b, c, d]);
    assert t.counts[a] == 1 && t.counts[b] == 1 && t.counts[c] == 1 && t.counts[d] == 1;
    assert prices[a] == Price(1.25, 3, 3.0) && prices[b] == Price(4.25, 1, 4.25);
    assert prices[c] == Price(1.0, 6, 5.0) && prices[d] == Price(0.75, 1, 0.75);
    TotalOfFour(prices, a, b, c, d, t.counts);
    assert LineCost(1, 1.25, 3, 3.0) == 1.25 && LineCost(1, 4.25, 1, 4.25) == 4.25;
    assert LineCost(1, 1.0, 6, 5.0) == 1.0 && LineCost(1, 0.75, 1, 0.75) == 0.75;
  }
}
