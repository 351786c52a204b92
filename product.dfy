/**
 * A catalog entry of the grocery market (Product.cs): a plain mutable record
 * whose five properties are independent auto-properties. The terminal's lists
 * hold references to these objects, so a change made through one reference is
 * seen through every other.
 */
module Products {
  import opened Wrappers
  import opened Lists
  import opened Pricing

  class Product {
    var code: string
    var name: Option<string>
    var unitPrice: real
    var bulkQty: int
    var bulkPrice: real

    /**
     * Only the code is given; every other property keeps its C# default,
     * which makes the bulk quantity 0 (not 1) until a price is set.
     */
    constructor (code: string)
      ensures this.code == code
      ensures name == None
      ensures unitPrice == 0.0 && bulkQty == 0 && bulkPrice == 0.0
    {
      this.code := code;
      name := None;
      unitPrice := 0.0;
      bulkQty := 0;
      bulkPrice := 0.0;
    }

    method SetCode(c: string)
      modifies this`code
      ensures code == c
    {
      code := c;
    }

    method SetName(n: Option<string>)
      modifies this`name
      ensures name == n
    {
      name := n;
    }

    method SetUnitPrice(price: real)
      modifies this`unitPrice
      ensures unitPrice == price
    {
      unitPrice := price;
    }

    method SetBulkQty(qty: int)
      modifies this`bulkQty
      ensures bulkQty == qty
    {
      bulkQty := qty;
    }

    method SetBulkPrice(price: real)
      modifies this`bulkPrice
      ensures bulkPrice == price
    {
      bulkPrice := price;
    }
  }

  /** The codes of a product list, position by position, as they are now. */
  function Codes(ps: seq<Product>): (r: seq<string>)
    reads ps
    ensures |r| == |ps|
    ensures forall i {:trigger r[i]} :: 0 <= i < |ps| ==> r[i] == ps[i].code
  {
    if ps == [] then [] else Codes(ps[..|ps| - 1]) + [ps[|ps| - 1].code]
  }

  /** `List.Find(p => p.ProductCode == code)`: the first product that currently carries `code`. */
  function Lookup(ps: seq<Product>, code: string): (p: Product)
    reads ps
    requires code in Codes(ps)
    ensures p in ps && p.code == code
  {
    ps[FirstIndex(Codes(ps), code)]
  }

  /** No product before the one `Lookup` finds carries the code: the first match wins. */
  lemma LookupIsFirst(ps: seq<Product>, code: string)
    requires code in Codes(ps)
    ensures exists i :: 0 <= i < |ps| && ps[i] == Lookup(ps, code) && forall j :: 0 <= j < i ==> ps[j].code != code
  {
    var i := FirstIndex(Codes(ps), code);
    FirstIndexIsFirst(Codes(ps), code);
    forall j | 0 <= j < i
      ensures ps[j].code != code
    {
      assert Codes(ps)[..i][j] == Codes(ps)[j];
    }
  }

  /** The price parameters a product holds now. */
  function PriceOf(p: Product): (price: Price)
    reads p
  {
    Price(p.unitPrice, p.bulkQty, p.bulkPrice)
  }

  /** What `CalculateTotal` would read for each code: the prices of the first product carrying it. */
  function PriceList(ps: seq<Product>): (m: map<string, Price>)
    reads ps
    ensures forall c :: c in m <==> c in Codes(ps)
  {
    map c | c in Codes(ps) :: PriceOf(Lookup(ps, c))
  }

  /** The price list holds, for a listed code, the prices of the product `Lookup` finds. */
  lemma PriceListAt(ps: seq<Product>, code: string)
    requires code in Codes(ps)
    ensures code in PriceList(ps) && PriceList(ps)[code] == PriceOf(Lookup(ps, code))
  {
  }

  /** Codes that stay on their products keep the list's codes as they were. */
  twostate lemma CodesKept(ps: seq<Product>)
    requires forall i :: 0 <= i < |ps| ==> ps[i].code == old(ps[i].code)
    ensures Codes(ps) == old(Codes(ps))
  {
    var now, before := Codes(ps), old(Codes(ps));
    assert |now| == |before|;
    forall i | 0 <= i < |ps|
      ensures now[i] == before[i]
    {
    }
  }

  /** Two maps with the same keys and the same value at every key are equal. */
  lemma SameMap(a: map<string, Price>, b: map<string, Price>)
    requires forall k :: k in a <==> k in b
    requires forall k :: k in a ==> a[k] == b[k]
    ensures a == b
  {
  }
}
