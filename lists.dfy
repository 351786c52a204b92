/**
 * The two list services the terminal leans on: `List.Find` (first element that
 * matches) and the LINQ `Except` comparison that guards every list copy.
 */
module Lists {

  /** Index of the first occurrence of `x` in `s`: what `List.Find` locates. */
  function FirstIndex<T(==)>(s: seq<T>, x: T): (r: nat)
    requires x in s
    ensures r < |s| && s[r] == x
  {
    if s[0] == x then 0
    else
      assert s == [s[0]] + s[1..];
      1 + FirstIndex(s[1..], x)
  }

  /** No earlier entry of `s` is `x`: the index is the first occurrence. */
  lemma {:induction false} FirstIndexIsFirst<T>(s: seq<T>, x: T)
    requires x in s
    ensures x !in s[..FirstIndex(s, x)]
  {
    if s[0] != x {
      assert s == [s[0]] + s[1..];
      FirstIndexIsFirst(s[1..], x);
      assert s[..FirstIndex(s, x)] == [s[0]] + s[1..][..FirstIndex(s[1..], x)];
    }
  }

  /** The first-occurrence conditions determine the index. */
  lemma {:induction false} FirstIndexUnique<T>(s: seq<T>, x: T, r: nat)
    requires r < |s| && s[r] == x && x !in s[..r]
    ensures FirstIndex(s, x) == r
  {
    if r > 0 {
      assert s[..r][0] == s[0];
      assert s[1..][..r - 1] == s[..r][1..];
      FirstIndexUnique(s[1..], x, r - 1);
    }
  }

  /** The distinct entries of a list, compared by identity as `Except` compares them. */
  function Elements<T(==)>(s: seq<T>): set<T>
  {
    set x | x in s
  }

  /**
   * The copy check: `a.Except(b)` and `b.Except(a)` are both empty. It looks
   * only at which entries occur, not at their order or how often they occur.
   */
  function SameElements<T(==)>(a: seq<T>, b: seq<T>): (passed: bool)
    ensures passed <==> Elements(a) == Elements(b)
  {
    Elements(a) - Elements(b) == {} && Elements(b) - Elements(a) == {}
  }

  /** The check holds exactly when every entry of either list occurs in the other. */
  lemma SameElementsMeaning<T>(a: seq<T>, b: seq<T>)
    ensures SameElements(a, b) <==> (forall x :: x in a <==> x in b)
  {
    if forall x :: x in a <==> x in b {
      assert Elements(a) == Elements(b);
    } else {
      var x :| !(x in a <==> x in b);
      assert x in Elements(a) - Elements(b) || x in Elements(b) - Elements(a);
    }
  }

  /** The check is blind to order and to repetition: it accepts copies that are not copies. */
  lemma CheckIgnoresOrderAndRepetition<T>(x: T, y: T)
    ensures SameElements([x, y], [y, x, x])
  {
    SameElementsMeaning([x, y], [y, x, x]);
  }
}
