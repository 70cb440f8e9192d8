/** Sums over the rows of a query, which come in no particular order. */
module Sums {

  function SumOver<T>(rows: seq<T>, f: T -> int): int {
    if rows == [] then 0 else SumOver(rows[..|rows|-1], f) + f(rows[|rows|-1])
  }

  lemma {:induction false} SumAppend<T>(a: seq<T>, c: seq<T>, f: T -> int)
    ensures SumOver(a + c, f) == SumOver(a, f) + SumOver(c, f)
  {
    if c == [] {
      assert a + c == a;
    } else {
      assert (a + c)[..|a + c|-1] == a + c[..|c|-1];
      SumAppend(a, c[..|c|-1], f);
    }
  }

  lemma SumOne<T>(r: T, f: T -> int)
    ensures SumOver([r], f) == f(r)
  {
    assert [r][..0] == [];
    assert SumOver([r][..0], f) == 0;
  }

  lemma SumAround<T>(a: seq<T>, r: T, c: seq<T>, f: T -> int)
    ensures SumOver(a + [r] + c, f) == SumOver(a + c, f) + f(r)
  {
    SumAppend(a, [r], f);
    SumAppend(a + [r], c, f);
    SumAppend(a, c, f);
    SumOne(r, f);
  }

  lemma SplitOut<T>(c: seq<T>, k: nat)
    requires k < |c|
    ensures c == c[..k] + [c[k]] + c[k+1..]
    ensures multiset(c) == multiset(c[..k] + c[k+1..]) + multiset{c[k]}
  {
    assert c == c[..k] + [c[k]] + c[k+1..];
    assert multiset(c) == multiset(c[..k]) + multiset([c[k]]) + multiset(c[k+1..]);
  }

  lemma WithoutOne<T>(a: seq<T>, c: seq<T>, k: nat)
    requires a != [] && k < |c| && multiset(a) == multiset(c) && c[k] == a[|a|-1]
    ensures multiset(a[..|a|-1]) == multiset(c[..k] + c[k+1..])
  {
    var n := |a| - 1;
    SplitOut(a, n);
    SplitOut(c, k);
    assert a[..n] + a[n+1..] == a[..n];
    var x, y := multiset(a[..n]), multiset(c[..k] + c[k+1..]);
    assert x == (x + multiset{a[n]}) - multiset{a[n]} == (y + multiset{a[n]}) - multiset{a[n]} == y;
  }

  /** The order in which the database returns the rows does not matter for a sum. */
  lemma {:induction false} OrderIrrelevant<T>(a: seq<T>, c: seq<T>, f: T -> int)
    requires multiset(a) == multiset(c)
    ensures SumOver(a, f) == SumOver(c, f)
    decreases |a|
  {
    if a == [] {
      assert |multiset(c)| == 0 && c == [];
    } else {
      var n := |a| - 1;
      assert a[n] in multiset(a);
      var k :| 0 <= k < |c| && c[k] == a[n];
      WithoutOne(a, c, k);
      SplitOut(c, k);
      OrderIrrelevant(a[..n], c[..k] + c[k+1..], f);
      SumAround(c[..k], c[k], c[k+1..], f);
    }
  }

  lemma {:induction false} SumSame<T>(a: seq<T>, c: seq<T>, f: T -> int)
    requires |a| == |c| && forall k :: 0 <= k < |a| ==> f(a[k]) == f(c[k])
    ensures SumOver(a, f) == SumOver(c, f)
  {
    if a != [] { SumSame(a[..|a|-1], c[..|c|-1], f); }
  }
}
