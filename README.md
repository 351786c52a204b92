# Grocery point-of-sale terminal

A Dafny model of the checkout core of GroceryMarketLibrary:

- `Product` is a mutable catalog record: a code, a name, a unit price, a bulk quantity and a bulk price.
- `PointOfSaleTerminal` holds:
  - a list of products;
  - the list of their codes;
  - an accumulator that counts scanned codes in the order of their first scan.

The terminal lists products, prices them, scans codes and rings up a total. A total charges every complete bulk at the bulk price and the rest at the unit price.

Layout:

- `wrappers.dfy`: `Option`, which stands for C#'s `null`.
- `lists.dfy`: `List.Find` as a first-occurrence index, and the `Except` copy check.
- `tally.dfy`: the scan accumulator (`Dictionary<string, int>` in insertion order) and what a run of scans leaves in it.
- `pricing.dfy`: the line cost of one code, the total over the accumulator, and C#'s truncating division.
- `product.dfy`: the `Product` class, plus the views of a product list that the terminal uses: codes, first match and price list.
- `terminal.dfy`: the `PointOfSaleTerminal` class, with its fields updated in place by its methods.
- `checkout.dfy`: the totals of the library's checkout tests, worked out over the pure model.
- `scenarios.dfy`: call sequences from the tests, stated as methods on a terminal object.

How the C# is represented:

- Products are heap objects shared between the caller and the terminal. The list "deep copies" in `SetProductList` and `GetProductList` copy only the list, so a `SetPricing` call is visible through the caller's own references.
- The terminal's price list is a view computed from the products it currently holds (`Products.PriceList`). `CalculateTotal` is specified against that view.
- Prices are exact reals.

## Model

| member | source | states |
|---|---|---|
| Products.Product.constructor | GroceryMarketLibrary/Product.cs:9-12 | the code is the one given; the name is null and the prices and bulk quantity are 0, their C# defaults (so an unpriced product has bulk quantity 0, not 1) |
| Products.Product.SetCode | GroceryMarketLibrary/Product.cs:17 | the code reads back as set, and no other property changes |
| Products.Product.SetUnitPrice | GroceryMarketLibrary/Product.cs:23 | the unit price reads back as set, and no other property changes |
| Products.Product.SetBulkQty | GroceryMarketLibrary/Product.cs:32 | the bulk quantity reads back as set, and no other property changes |
| Products.Product.SetBulkPrice | GroceryMarketLibrary/Product.cs:40 | the bulk price reads back as set, and no other property changes |
| Products.Product.SetName | GroceryMarketLibrary/Product.cs:47 | the name reads back as set, and no other property changes |
| Products.Codes | GroceryMarketLibrary/PointOfSaleTerminal.cs:82-88 | the code list has one entry per product, and entry i is the code of product i |
| Lists.FirstIndex | GroceryMarketLibrary/PointOfSaleTerminal.cs:173 | `Find` on a code that is present lands on an entry equal to it |
| Lists.FirstIndexIsFirst | GroceryMarketLibrary/PointOfSaleTerminal.cs:173 | no entry before the one found is equal to it, so the first match wins |
| Lists.FirstIndexUnique | GroceryMarketLibrary/PointOfSaleTerminal.cs:173 | any index holding the first occurrence is the one found |
| Products.Lookup | GroceryMarketLibrary/PointOfSaleTerminal.cs:235 | the product found is in the list and carries the code searched for |
| Products.LookupIsFirst | GroceryMarketLibrary/PointOfSaleTerminal.cs:235 | no product before the one found carries that code |
| Products.PriceList | GroceryMarketLibrary/PointOfSaleTerminal.cs:235-237 | a code has a price exactly when some product in the list carries it |
| Products.PriceListAt | GroceryMarketLibrary/PointOfSaleTerminal.cs:235-237 | the price of a listed code is the one held by the first product carrying it |
| Products.CodesKept | GroceryMarketLibrary/PointOfSaleTerminal.cs:174-176 | writing prices into products leaves the list's codes as they were |
| Lists.SameElements | GroceryMarketLibrary/PointOfSaleTerminal.cs:96-98 | the two-way `Except` check passes exactly when both lists hold the same set of entries |
| Lists.SameElementsMeaning | GroceryMarketLibrary/PointOfSaleTerminal.cs:96-98 | the `Except` check passes exactly when each list's entries all occur in the other |
| Lists.CheckIgnoresOrderAndRepetition | GroceryMarketLibrary/PointOfSaleTerminal.cs:96-98 | the check accepts two lists that differ in order and in length |
| Terminal.PointOfSaleTerminal.constructor | GroceryMarketLibrary/PointOfSaleTerminal.cs:16-33 | a new terminal has null lists, null terminal code and an empty accumulator |
| Terminal.PointOfSaleTerminal.SetTerminalCode | GroceryMarketLibrary/PointOfSaleTerminal.cs:59 | the terminal code reads back as set, and nothing else changes |
| Terminal.PointOfSaleTerminal.SetProductList | GroceryMarketLibrary/PointOfSaleTerminal.cs:68-111 | returns 1, because the check after the copy loop cannot fail. The product list becomes the same products in the same order, the code list becomes their codes in that order, and the accumulator and terminal code are untouched |
| Terminal.PointOfSaleTerminal.GetProductList | GroceryMarketLibrary/PointOfSaleTerminal.cs:120-146 | returns a list of the same products in the same order, never null, and changes nothing |
| Terminal.PointOfSaleTerminal.SetPricing | GroceryMarketLibrary/PointOfSaleTerminal.cs:165-179 | returns 1. The price list now gives the code the new unit price and bulk quantity, with the bulk price replaced by the unit price when the defaults (1, 0) are passed. Every other code keeps its price, the codes, the found product's name and identity are unchanged, and only that one product is written |
| Terminal.PointOfSaleTerminal.ScanProduct | GroceryMarketLibrary/PointOfSaleTerminal.cs:195-216 | returns 1 exactly when the code list holds the code, and then records one scan of it; otherwise returns 0 and leaves the accumulator alone. The accumulator stays well formed |
| ScanTally.Record | GroceryMarketLibrary/PointOfSaleTerminal.cs:204-213 | one scan: the code's count goes up by one, a new code joins the end of the order, and no other count or position moves |
| ScanTally.RecordKeepsValid | GroceryMarketLibrary/PointOfSaleTerminal.cs:204-213 | a scan keeps the keys distinct, keeps the keys equal to the counted codes, and keeps every count at least 1 |
| Terminal.PointOfSaleTerminal.CalculateTotal | GroceryMarketLibrary/PointOfSaleTerminal.cs:226-242 | returns the total of the accumulator as it was, priced by the products' current prices, and leaves the accumulator empty. A terminal that never had a product list has nothing scanned and returns 0 |
| Terminal.PriceScans | GroceryMarketLibrary/PointOfSaleTerminal.cs:231-238 | the loop sums the line costs of the accumulator in its order, each code priced by the first product carrying it |
| Pricing.Total | GroceryMarketLibrary/PointOfSaleTerminal.cs:233-238 | the sum the loop computes, one line cost per accumulator code in accumulator order; what it means is stated by the lemmas below |
| Pricing.TotalNonNegative | GroceryMarketLibrary/PointOfSaleTerminal.cs:233-238 | with non-negative prices and counts and positive bulk quantities, the total is never negative |
| Pricing.TotalStep | GroceryMarketLibrary/PointOfSaleTerminal.cs:233-238 | one more pass of the loop adds that code's line cost to the running total |
| Pricing.TotalAppend | GroceryMarketLibrary/PointOfSaleTerminal.cs:233-238 | a code added at the end of the order adds its line cost |
| Pricing.TotalFrame | GroceryMarketLibrary/PointOfSaleTerminal.cs:233-238 | the total depends only on the counts of the codes in the order |
| Pricing.LineCost | GroceryMarketLibrary/PointOfSaleTerminal.cs:237 | the line cost of one code: complete bulks at the bulk price, the rest at the unit price; tied to C# by the lemmas below |
| Pricing.LineCostIsTruncating | GroceryMarketLibrary/PointOfSaleTerminal.cs:237 | for every count that can be scanned and every non-zero bulk quantity, the line cost equals C#'s formula with truncating `/` and `%` |
| Pricing.LineCostNonNegative | GroceryMarketLibrary/PointOfSaleTerminal.cs:237 | a line with a non-negative count and prices and a positive bulk quantity never costs less than 0 |
| Pricing.EuclideanIsTruncating | GroceryMarketLibrary/PointOfSaleTerminal.cs:237 | for a non-negative count and a non-zero bulk quantity of either sign, the model's `/` and `%` agree with C#'s truncating ones |
| Pricing.NoDiscountLineCost | GroceryMarketLibrary/PointOfSaleTerminal.cs:237 | a bulk of one at the unit price charges the unit price per item |
| Pricing.ProportionalBulkLineCost | GroceryMarketLibrary/PointOfSaleTerminal.cs:237 | a bulk price equal to bulk quantity times unit price charges the unit price per item |
| Pricing.PartialBulkLineCost | GroceryMarketLibrary/PointOfSaleTerminal.cs:237 | fewer items than one bulk are charged at the unit price |
| Pricing.FullBulkLineCost | GroceryMarketLibrary/PointOfSaleTerminal.cs:237 | each further complete bulk adds exactly the bulk price |
| Pricing.BulkNeverCostsMore | GroceryMarketLibrary/PointOfSaleTerminal.cs:237 | when the bulk price is at most the bulk's unit-price cost, the line never costs more than unit pricing |
| Pricing.TotalBump | GroceryMarketLibrary/PointOfSaleTerminal.cs:206 | one more scan of an undiscounted code already counted raises the total by its unit price |
| Pricing.UndiscountedScan | GroceryMarketLibrary/PointOfSaleTerminal.cs:204-213 | any scan of an undiscounted product raises the total by exactly its unit price, and the accumulator stays well formed |
| Pricing.UndiscountedRepeatScan | GroceryMarketLibrary/PointOfSaleTerminal.cs:206 | the repeated-scan branch of that statement |
| Pricing.UndiscountedFirstScan | GroceryMarketLibrary/PointOfSaleTerminal.cs:211 | the first-scan branch of that statement |
| Pricing.UndiscountedTotal | GroceryMarketLibrary/Product.cs:30-38 | with no bulk deals, the total of any scan sequence is the sum of the items' unit prices |
| ScanTally.Tallied | GroceryMarketLibrary/PointOfSaleTerminal.cs:195-216 | the accumulator left by a run of `ScanProduct` calls that all succeed, starting from empty; what it holds is stated by the lemmas below and `Scenarios.ScanAll` |
| ScanTally.TalliedValid | GroceryMarketLibrary/PointOfSaleTerminal.cs:195-216 | whatever sequence is scanned, the accumulator is well formed |
| ScanTally.TalliedCounts | GroceryMarketLibrary/PointOfSaleTerminal.cs:195-216 | each code's count is the number of times it was scanned |
| ScanTally.TalliedKeys | GroceryMarketLibrary/PointOfSaleTerminal.cs:195-216 | the accumulator lists exactly the scanned codes, ordered by first scan |
| ScanTally.TalliedSnoc | GroceryMarketLibrary/PointOfSaleTerminal.cs:195-216 | scanning one more code records it on top of the earlier scans |
| ScanTally.TalliedDistinct | GroceryMarketLibrary/PointOfSaleTerminal.cs:211 | distinct codes scanned once each are listed in scan order, each with count 1 |
| ScanTally.TalliedRepeated | GroceryMarketLibrary/PointOfSaleTerminal.cs:206 | one code scanned n times is listed once, with count n |
| ScanTally.ScanDistinctExample | GroceryMarketLibrary.UnitTests/GroceryMarketLibraryTests.cs:580-583 | A, B, C, D scanned once each are listed as A, B, C, D with count 1 |
| ScanTally.ScanOrderExample | GroceryMarketLibrary.UnitTests/GroceryMarketLibraryTests.cs:364-461 | scanning A, B, C, D, A, B, A leaves A:3, B:2, C:1, D:1, in that order |
| Checkout.MixedBasketTotal | GroceryMarketLibrary.UnitTests/GroceryMarketLibraryTests.cs:490-521 | with the test prices, A, B, C, D, A, B, A totals 13.25 |
| Checkout.BulkBasketTotal | GroceryMarketLibrary.UnitTests/GroceryMarketLibraryTests.cs:526-557 | with the test prices, seven C's total 6.00 |
| Checkout.SingleEachTotal | GroceryMarketLibrary.UnitTests/GroceryMarketLibraryTests.cs:562-590 | with the test prices, A, B, C, D total 7.25 |
| Scenarios.ScanKnownAndUnknown | GroceryMarketLibrary.UnitTests/GroceryMarketLibraryTests.cs:333-359 | with codes A and B listed, scanning A, B, C returns 1, 1, 0 and records only A and B |
| Scenarios.PriceTwoProducts | GroceryMarketLibrary.UnitTests/GroceryMarketLibraryTests.cs:285-328 | after pricing A at (1.25, 3, 3.0) and B at 4.25 alone, B reads as 4.25 with a bulk of 1 at 4.25 |
| Scenarios.RingUpTwice | GroceryMarketLibrary/PointOfSaleTerminal.cs:219-223 | a second `CalculateTotal` with no scan in between returns 0, whether or not the terminal has a product list |
| Scenarios.RingUpFresh | GroceryMarketLibrary/PointOfSaleTerminal.cs:33 | `CalculateTotal` on a new terminal, before any product list is set, returns 0 |
| Scenarios.ScanAll | GroceryMarketLibrary.UnitTests/GroceryMarketLibraryTests.cs:490-521 | scanning a basket code by code into an empty accumulator, every code on the code list, counts every scan and leaves the accumulator equal to the tally of the basket |

## Left out

- Floating point: `float` prices and the running `float` total are exact reals. IEEE rounding and the effects of summation order are not modelled. All prices in the tests are exact in binary.
- 32-bit integers: counts and bulk quantities are unbounded, so a count overflowing `int` is not modelled.
- Dictionary enumeration order: `Dictionary<string, int>` is enumerated in insertion order. .NET gives that order for a dictionary that is only added to and cleared, but does not document it. The order affects only the order of the sum.
- Faults are preconditions instead of exceptions. This covers:
  - `SetPricing` before `SetProductList` or on a code no product carries (`Find` returns null);
  - `ScanProduct` before `SetProductList`;
  - `GetProductList` before `SetProductList` (the copy loop walks a null list);
  - `CalculateTotal` on a scanned code that no product in the list carries any more, because its code was changed after `SetProductList` (`Find` returns null);
  - `CalculateTotal` on a scanned code whose product has bulk quantity 0, which is the default of a never-priced product (division by zero).
- A null argument to `SetProductList` (a fault in C#) cannot be expressed, because the argument is a sequence.
- Null strings and null list entries cannot be expressed: codes are `string` values (a name may be null), and a product list holds `Product` references that are never null. This leaves out:
  - `new Product(null)` and `SetCode(null)`, and `SetPricing(null, …)`, which in C# prices a product whose code is null;
  - `ScanProduct(null)`, which faults in the dictionary lookup;
  - a null entry in the argument of `SetProductList`, which faults when its code is read, after both lists have been replaced by partly filled ones.
- Terminal.PointOfSaleTerminal.SetProductList: the lists it fills are values, not fresh objects. "A new list, not the caller's" therefore shows only as equal contents.
- Terminal.PointOfSaleTerminal.GetProductList: the same holds for the list it returns.
- Terminal.PointOfSaleTerminal.CalculateTotal: the C# folds over the dictionary inside the method. Here that loop is `Terminal.PriceScans`, called from it.
- Reference equality in `Except`: the check is modelled as set difference over the list entries, which for products are object references.
- Interfaces (`IProduct`, `IPointOfSaleTerminal`) carry signatures only and are folded into the classes. This also covers the test-only subclass, the commented-out accessor block and the unused serialisation imports.
- Checkout.MixedBasketTotal: proved for the test's own prices and basket only. The general statement, that any basket rings up to the total of its tally, is `Scenarios.ScanAll` together with `Terminal.PointOfSaleTerminal.CalculateTotal`, and is not proved as a single method.
- Checkout.BulkBasketTotal: the same holds; proved for seven C's at the test prices only.
- Checkout.SingleEachTotal: the same holds; proved for A, B, C, D at the test prices only.
- Whole tests starting from a fresh terminal are not modelled as single methods. The totals the tests expect are proved over the pure model (`Checkout`), and the call sequences are proved from a given terminal state (`Scenarios`).
- Product codes: the documentation calls them unique, but nothing enforces it, and `ProductCode` has a public setter. The model allows duplicates: `Find` takes the first match, and a changed code is seen by `CalculateTotal`. `SetProductList` is what captures the code list that `ScanProduct` checks against.
