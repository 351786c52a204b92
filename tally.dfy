/**
 * The terminal's scan accumulator (`_scannedProductCodes` in
 * PointOfSaleTerminal.cs): a dictionary from product code to the number of
 * times it was scanned, enumerated in the order in which codes were first
 * scanned. It is kept as the codes in that order plus the counts.
 */
module ScanTally {
  import opened Lists

  datatype Tally = Tally(keys: seq<string>, counts: map<string, int>) {
    /** Each code listed once, exactly the codes that have a count, and every count at least 1. */
    ghost predicate Valid() {
      && (forall i, j :: 0 <= i < j < |keys| ==> keys[i] != keys[j])
      && (forall c :: c in counts <==> c in keys)
      && (forall c :: c in counts ==> counts[c] >= 1)
    }
  }

  /** The accumulator as the terminal starts with it and as `Clear()` leaves it. */
  const Empty: Tally := Tally([], map[])

  /** How often `code` has been scanned; a code that is absent has been scanned zero times. */
  function Count(t: Tally, code: string): (n: int)
  {
    if code in t.counts then t.counts[code] else 0
  }

  /**
   * One scan of a known code: its count goes up by one, a code seen for the
   * first time joins the end of the order, and nothing else moves.
   */
  function Record(t: Tally, code: string): (r: Tally)
    ensures Count(r, code) == Count(t, code) + 1
    ensures forall c :: c != code ==> Count(r, c) == Count(t, c)
    ensures r.keys == if code in t.counts then t.keys else t.keys + [code]
  {
    if code in t.counts then Tally(t.keys, t.counts[code := t.counts[code] + 1])
    else Tally(t.keys + [code], t.counts[code := 1])
  }

  /** Recording a scan keeps the accumulator well formed. */
  lemma RecordKeepsValid(t: Tally, code: string)
    requires t.Valid()
    ensures Record(t, code).Valid()
  {
  }

  /** The accumulator after scanning `codes`, in order, starting from empty. */
  function Tallied(codes: seq<string>): (t: Tally)
  {
    if codes == [] then Empty else Record(Tallied(codes[..|codes| - 1]), codes[|codes| - 1])
  }

  /** Whatever was scanned, the accumulator is well formed. */
  lemma {:induction false} TalliedValid(codes: seq<string>)
    ensures Tallied(codes).Valid()
  {
    if codes != [] {
      TalliedValid(codes[..|codes| - 1]);
      RecordKeepsValid(Tallied(codes[..|codes| - 1]), codes[|codes| - 1]);
    }
  }

  /** Each code's count is the number of times it occurs among the scans. */
  lemma {:induction false} TalliedCounts(codes: seq<string>, c: string)
    ensures Count(Tallied(codes), c) == multiset(codes)[c]
  {
    if codes != [] {
      var init, last := codes[..|codes| - 1], codes[|codes| - 1];
      assert codes == init + [last];
      TalliedCounts(init, c);
    }
  }

  /**
   * The accumulator lists exactly the scanned codes, in the order of their
   * first scan.
   */
  lemma {:induction false} TalliedKeys(codes: seq<string>)
    ensures forall c :: c in Tallied(codes).keys <==> c in codes
    ensures forall i, j :: 0 <= i < j < |Tallied(codes).keys| ==>
      FirstIndex(codes, Tallied(codes).keys[i]) < FirstIndex(codes, Tallied(codes).keys[j])
  {
    if codes != [] {
      var init, last := codes[..|codes| - 1], codes[|codes| - 1];
      assert codes == init + [last];
      TalliedKeys(init);
      TalliedValid(init);
      var before, keys := Tallied(init).keys, Tallied(codes).keys;
      forall i, j | 0 <= i < j < |keys|
        ensures FirstIndex(codes, keys[i]) < FirstIndex(codes, keys[j])
      {
        assert keys[i] == before[i];
        FirstIndexOfPrefix(init, last, keys[i]);
        if j < |before| {
          assert keys[j] == before[j];
          FirstIndexOfPrefix(init, last, keys[j]);
        } else {
          assert keys == before + [last] && last !in init;
          assert codes[..|init|] == init;
          FirstIndexUnique(codes, last, |init|);
        }
      }
    }
  }

  /** Appending an element does not move the first occurrence of anything already present. */
  lemma FirstIndexOfPrefix(s: seq<string>, y: string, x: string)
    requires x in s
    ensures FirstIndex(s + [y], x) == FirstIndex(s, x)
  {
    var k := FirstIndex(s, x);
    FirstIndexIsFirst(s, x);
    assert (s + [y])[..k] == s[..k];
    FirstIndexUnique(s + [y], x, k);
  }

  /** Scanning one more code records it on top of the scans before it. */
  lemma TalliedSnoc(codes: seq<string>, code: string)
    ensures Tallied(codes + [code]) == Record(Tallied(codes), code)
  {
    assert (codes + [code])[..|codes|] == codes;
  }

  /** Codes scanned once each are listed in scan order, each counted once. */
  lemma {:induction false} TalliedDistinct(codes: seq<string>)
    requires forall i, j :: 0 <= i < j < |codes| ==> codes[i] != codes[j]
    ensures Tallied(codes).keys == codes
    ensures forall c :: c in codes ==> Count(Tallied(codes), c) == 1
  {
    if codes != [] {
      var init, last := codes[..|codes| - 1], codes[|codes| - 1];
      assert codes == init + [last];
      TalliedDistinct(init);
      TalliedValid(init);
      assert last !in init;
    }
  }

  /** A code scanned `n` times in a row, and nothing else, is listed once with count `n`. */
  lemma {:induction false} TalliedRepeated(c: string, n: nat)
    requires n >= 1
    ensures Tallied(seq(n, _ => c)) == Tally([c], map[c := n])
  {
    var s := seq(n, _ => c);
    if n == 1 {
      assert s[..0] == [];
    } else {
      assert s[..n - 1] == seq(n - 1, _ => c);
      TalliedRepeated(c, n - 1);
      assert map[c := n - 1][c := n] == map[c := n];
    }
  }

  /** Four distinct codes scanned once each are listed in scan order, each counted once. */
  lemma ScanDistinctExample(a: string, b: string, c: string, d: string)
    requires a != b && a != c && a != d && b != c && b != d && c != d
    ensures var t := Tallied([a, b, c, d]);
      t.keys == [a, b, c, d] && Count(t, a) == 1 && Count(t, b) == 1 && Count(t, c) == 1 && Count(t, d) == 1
  {
    TalliedDistinct([a, b, c, d]);
  }

  /** Test 13: scanning A, B, C, D, A, B, A leaves A:3, B:2, C:1, D:1, in that order. */
  lemma ScanOrderExample(a: string, b: string, c: string, d: string)
    requires a != b && a != c && a != d && b != c && b != d && c != d
    ensures var t := Tallied([a, b, c, d, a, b, a]);
      t.keys == [a, b, c, d] && Count(t, a) == 3 && Count(t, b) == 2 && Count(t, c) == 1 && Count(t, d) == 1
  {
    ScanDistinctExample(a, b, c, d);
    TalliedSnoc([a, b, c, d], a);
    assert [a, b, c, d] + [a] == [a, b, c, d, a];
    TalliedSnoc([a, b, c, d, a], b);
    assert [a, b, c, d, a] + [b] == [a, b, c, d, a, b];
    TalliedSnoc([a, b, c, d, a, b], a);
    assert [a, b, c, d, a, b] + [a] == [a, b, c, d, a, b, a];
  }
}
