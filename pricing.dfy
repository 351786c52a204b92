/**
 * What `CalculateTotal` charges (PointOfSaleTerminal.cs): for each scanned
 * code, every complete bulk at the bulk price and the remainder at the unit
 * price, summed over the accumulator in first-scan order. Prices are exact
 * reals rather than C# floats.
 */
module Pricing {
  import opened ScanTally

  /** The three price parameters of a product, as `CalculateTotal` reads them. */
  datatype Price = Price(unitPrice: real, bulkQty: int, bulkPrice: real)

  /** C#'s integer division, which truncates toward zero. */
  function TruncDiv(a: int, b: int): (q: int)
    requires b != 0
  {
    var q := (if a < 0 then -a else a) / (if b < 0 then -b else b);
    if (a < 0) == (b < 0) then q else -q
  }

  /** C#'s `%`, whose result takes the sign of the dividend. */
  function TruncRem(a: int, b: int): (r: int)
    requires b != 0
  {
    a - b * TruncDiv(a, b)
  }

  /**
   * A scanned quantity is never negative, and on such a dividend Dafny's
   * Euclidean `/` and `%` give what C# gives, for a divisor of either sign.
   */
  lemma EuclideanIsTruncating(a: int, b: int)
    requires a >= 0 && b != 0
    ensures a / b == TruncDiv(a, b) && a % b == TruncRem(a, b)
  {
    if b < 0 {
      var q, r := a / -b, a % -b;
      assert a == b * -q + r && 0 <= r < -b;
      DivisionIsUnique(a, b, -q, r);
    }
  }

  /** Euclidean quotient and remainder are the only ones with `0 <= r < |b|`. */
  lemma DivisionIsUnique(a: int, b: int, q: int, r: int)
    requires b != 0 && a == b * q + r && 0 <= r < (if b < 0 then -b else b)
    ensures a / b == q && a % b == r
  {
    var d := q - a / b;
    assert b * d == a % b - r;
    if d != 0 {
      MultipleIsLarge(b, d);
    }
  }

  /** A non-zero multiple of `b` is at least as large as `b` in magnitude. */
  lemma MultipleIsLarge(b: int, d: int)
    requires b != 0 && d != 0
    ensures var m := b * d; (if m < 0 then -m else m) >= (if b < 0 then -b else b)
  {
    var e := if d < 0 then -d else d;
    assert b * d == b * e || b * d == -(b * e);
    assert b * e == b * (e - 1) + b;
    if b > 0 {
      assert b * (e - 1) >= 0;
    } else {
      assert b * (e - 1) <= 0;
    }
  }

  /** The charge for `qty` scans of one product: whole bulks at the bulk price, the rest at the unit price. */
  function LineCost(qty: int, unitPrice: real, bulkQty: int, bulkPrice: real): (cost: real)
    requires bulkQty != 0
  {
    (qty / bulkQty) as real * bulkPrice + (qty % bulkQty) as real * unitPrice
  }

  /** The line cost is C#'s formula, with C#'s truncating `/` and `%`, for every quantity that can be scanned. */
  lemma LineCostIsTruncating(qty: int, unitPrice: real, bulkQty: int, bulkPrice: real)
    requires qty >= 0 && bulkQty != 0
    ensures LineCost(qty, unitPrice, bulkQty, bulkPrice) ==
      TruncDiv(qty, bulkQty) as real * bulkPrice + TruncRem(qty, bulkQty) as real * unitPrice
  {
    EuclideanIsTruncating(qty, bulkQty);
  }

  /** The default pricing (bulk of one at the unit price) charges the unit price for each item. */
  lemma NoDiscountLineCost(qty: int, unitPrice: real)
    ensures LineCost(qty, unitPrice, 1, unitPrice) == qty as real * unitPrice
  {
  }

  /** A bulk price that is just `bulkQty` unit prices is no discount at all. */
  lemma ProportionalBulkLineCost(qty: int, unitPrice: real, bulkQty: int)
    requires qty >= 0 && bulkQty > 0
    ensures LineCost(qty, unitPrice, bulkQty, bulkQty as real * unitPrice) == qty as real * unitPrice
  {
    var q, r := qty / bulkQty, qty % bulkQty;
    assert qty == q * bulkQty + r;
    assert (q * bulkQty) as real == q as real * bulkQty as real;
  }

  /** Below one bulk, every item is charged at the unit price. */
  lemma PartialBulkLineCost(qty: int, unitPrice: real, bulkQty: int, bulkPrice: real)
    requires 0 <= qty < bulkQty
    ensures LineCost(qty, unitPrice, bulkQty, bulkPrice) == qty as real * unitPrice
  {
  }

  /** Each further complete bulk adds exactly the bulk price. */
  lemma FullBulkLineCost(qty: int, unitPrice: real, bulkQty: int, bulkPrice: real)
    requires qty >= 0 && bulkQty > 0
    ensures LineCost(qty + bulkQty, unitPrice, bulkQty, bulkPrice) ==
      LineCost(qty, unitPrice, bulkQty, bulkPrice) + bulkPrice
  {
    var q, r := qty / bulkQty, qty % bulkQty;
    DivisionIsUnique(qty + bulkQty, bulkQty, q + 1, r);
  }

  /** When the bulk price is a discount, bulk pricing never charges more than unit pricing. */
  lemma BulkNeverCostsMore(qty: int, unitPrice: real, bulkQty: int, bulkPrice: real)
    requires qty >= 0 && bulkQty > 0 && bulkPrice <= bulkQty as real * unitPrice
    ensures LineCost(qty, unitPrice, bulkQty, bulkPrice) <= qty as real * unitPrice
  {
    var q := qty / bulkQty;
    ProportionalBulkLineCost(qty, unitPrice, bulkQty);
    assert q as real * bulkPrice <= q as real * (bulkQty as real * unitPrice);
  }

  /** Every scanned code has a price, and its bulk quantity is not zero. */
  predicate Priceable(prices: map<string, Price>, keys: seq<string>)
  {
    forall k :: k in keys ==> k in prices && prices[k].bulkQty != 0
  }

  /** The sum of the line costs of `keys`, added up in that order. */
  function Total(prices: map<string, Price>, keys: seq<string>, counts: map<string, int>): (total: real)
    requires Priceable(prices, keys)
    requires forall k :: k in keys ==> k in counts
  {
    if keys == [] then 0.0
    else
      var k := keys[|keys| - 1];
      var p := prices[k];
      Total(prices, keys[..|keys| - 1], counts) + LineCost(counts[k], p.unitPrice, p.bulkQty, p.bulkPrice)
  }

  /** Counts and prices as a till holds them: nothing negative, and every bulk at least one item. */
  predicate Sensible(prices: map<string, Price>, keys: seq<string>, counts: map<string, int>)
  {
    forall k :: k in keys ==>
      && k in prices && k in counts && counts[k] >= 0
      && prices[k].bulkQty > 0 && prices[k].unitPrice >= 0.0 && prices[k].bulkPrice >= 0.0
  }

  /** A line never costs less than nothing when its count and prices are not negative. */
  lemma LineCostNonNegative(qty: int, unitPrice: real, bulkQty: int, bulkPrice: real)
    requires qty >= 0 && bulkQty > 0 && unitPrice >= 0.0 && bulkPrice >= 0.0
    ensures LineCost(qty, unitPrice, bulkQty, bulkPrice) >= 0.0
  {
    assert qty / bulkQty >= 0 && qty % bulkQty >= 0;
    var q, r := (qty / bulkQty) as real, (qty % bulkQty) as real;
    assert q * bulkPrice >= 0.0 && r * unitPrice >= 0.0;
  }

  /** With sensible prices and counts the total is never negative. */
  lemma {:induction false} TotalNonNegative(prices: map<string, Price>, keys: seq<string>, counts: map<string, int>)
    requires Priceable(prices, keys) && Sensible(prices, keys, counts)
    ensures Total(prices, keys, counts) >= 0.0
  {
    if keys != [] {
      var k := keys[|keys| - 1];
      TotalNonNegative(prices, keys[..|keys| - 1], counts);
      LineCostNonNegative(counts[k], prices[k].unitPrice, prices[k].bulkQty, prices[k].bulkPrice);
    }
  }

  /** The total depends only on the counts of the codes it adds up. */
  lemma {:induction false} TotalFrame(prices: map<string, Price>, keys: seq<string>, c1: map<string, int>, c2: map<string, int>)
    requires Priceable(prices, keys)
    requires forall k :: k in keys ==> k in c1 && k in c2 && c1[k] == c2[k]
    ensures Total(prices, keys, c1) == Total(prices, keys, c2)
  {
    if keys != [] {
      TotalFrame(prices, keys[..|keys| - 1], c1, c2);
    }
  }

  /** Adding a code at the end of the order adds its line cost. */
  lemma TotalAppend(prices: map<string, Price>, keys: seq<string>, counts: map<string, int>, y: string)
    requires Priceable(prices, keys + [y])
    requires forall k :: k in keys + [y] ==> k in counts
    ensures Priceable(prices, keys)
    ensures var p := prices[y];
      Total(prices, keys + [y], counts) == Total(prices, keys, counts) + LineCost(counts[y], p.unitPrice, p.bulkQty, p.bulkPrice)
  {
    assert (keys + [y])[..|keys|] == keys;
  }

  /** Adding up one more code of the order adds its line cost. */
  lemma TotalStep(prices: map<string, Price>, keys: seq<string>, counts: map<string, int>, i: int)
    requires Priceable(prices, keys)
    requires forall k :: k in keys ==> k in counts
    requires 0 <= i < |keys|
    ensures Priceable(prices, keys[..i + 1])
    ensures var k := keys[i]; var p := prices[k];
      Total(prices, keys[..i + 1], counts) == Total(prices, keys[..i], counts) + LineCost(counts[k], p.unitPrice, p.bulkQty, p.bulkPrice)
  {
    assert keys[..i + 1][..i] == keys[..i];
  }

  /** A product with no bulk deal: a bulk of one at the unit price, as `SetPricing` defaults it. */
  predicate Undiscounted(p: Price)
  {
    p.bulkQty == 1 && p.bulkPrice == p.unitPrice
  }

  /** One more scan of an undiscounted code already in the total adds its unit price. */
  lemma {:induction false} TotalBump(prices: map<string, Price>, keys: seq<string>, counts: map<string, int>, y: string)
    requires Priceable(prices, keys)
    requires forall k :: k in keys ==> k in counts
    requires forall i, j :: 0 <= i < j < |keys| ==> keys[i] != keys[j]
    requires y in keys && Undiscounted(prices[y])
    ensures Total(prices, keys, counts[y := counts[y] + 1]) == Total(prices, keys, counts) + prices[y].unitPrice
  {
    var init, last := keys[..|keys| - 1], keys[|keys| - 1];
    var bumped := counts[y := counts[y] + 1];
    if last == y {
      assert y !in init;
      TotalFrame(prices, init, bumped, counts);
      NoDiscountLineCost(counts[y] + 1, prices[y].unitPrice);
      NoDiscountLineCost(counts[y], prices[y].unitPrice);
    } else {
      TotalBump(prices, init, counts, y);
    }
  }

  /** The unit prices of the scanned items, one by one. */
  function ItemSum(prices: map<string, Price>, codes: seq<string>): (sum: real)
    requires forall c :: c in codes ==> c in prices
  {
    if codes == [] then 0.0
    else ItemSum(prices, codes[..|codes| - 1]) + prices[codes[|codes| - 1]].unitPrice
  }

  /** One more scan of an undiscounted product adds exactly its unit price to the total. */
  lemma UndiscountedScan(prices: map<string, Price>, t: Tally, y: string)
    requires t.Valid() && Priceable(prices, t.keys)
    requires y in prices && Undiscounted(prices[y])
    ensures var r := Record(t, y);
      r.Valid() && Priceable(prices, r.keys) && Total(prices, r.keys, r.counts) == Total(prices, t.keys, t.counts) + prices[y].unitPrice
  {
    RecordKeepsValid(t, y);
    var r := Record(t, y);
    if y in t.counts {
      assert r.keys == t.keys && r.counts == t.counts[y := t.counts[y] + 1];
      UndiscountedRepeatScan(prices, t, y, r);
    } else {
      assert r.keys == t.keys + [y] && r.counts == t.counts[y := 1];
      UndiscountedFirstScan(prices, t, y, r);
    }
  }

  /** A repeated scan of an undiscounted product raises the total by its unit price. */
  lemma UndiscountedRepeatScan(prices: map<string, Price>, t: Tally, y: string, r: Tally)
    requires t.Valid() && Priceable(prices, t.keys) && y in t.counts && Undiscounted(prices[y])
    requires r.keys == t.keys && r.counts == t.counts[y := t.counts[y] + 1]
    ensures Priceable(prices, r.keys)
    ensures Total(prices, r.keys, r.counts) == Total(prices, t.keys, t.counts) + prices[y].unitPrice
  {
    TotalBump(prices, t.keys, t.counts, y);
  }

  /** The first scan of an undiscounted product adds one line charging its unit price. */
  lemma UndiscountedFirstScan(prices: map<string, Price>, t: Tally, y: string, r: Tally)
    requires t.Valid() && Priceable(prices, t.keys) && y !in t.counts
    requires y in prices && Undiscounted(prices[y])
    requires r.keys == t.keys + [y] && r.counts == t.counts[y := 1]
    ensures Priceable(prices, r.keys)
    ensures Total(prices, r.keys, r.counts) == Total(prices, t.keys, t.counts) + prices[y].unitPrice
  {
    TotalAppend(prices, t.keys, r.counts, y);
    TotalFrame(prices, t.keys, r.counts, t.counts);
    NoDiscountLineCost(1, prices[y].unitPrice);
  }

  /**
   * Without bulk deals, the total of an accumulator is what the till would
   * ring up item by item: the sum of the unit prices of everything scanned.
   */
  lemma {:induction false} UndiscountedTotal(prices: map<string, Price>, codes: seq<string>)
    requires forall c :: c in codes ==> c in prices && Undiscounted(prices[c])
    ensures var t := Tallied(codes);
      t.Valid() && Priceable(prices, t.keys) && Total(prices, t.keys, t.counts) == ItemSum(prices, codes)
  {
    if codes != [] {
      var init, y := codes[..|codes| - 1], codes[|codes| - 1];
      UndiscountedTotal(prices, init);
      UndiscountedScan(prices, Tallied(init), y);
    }
  }
}
