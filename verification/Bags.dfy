/** Sequences seen as bags: taking one element out of a permutation. */
module Bags {

  lemma SplitOff<T>(ys: seq<T>, i: nat)
    requires i < |ys|
    ensures ys == ys[..i] + [ys[i]] + ys[i + 1..]
    ensures multiset(ys) == multiset(ys[..i] + ys[i + 1..]) + multiset{ys[i]}
  {
    assert ys == ys[..i] + [ys[i]] + ys[i + 1..];
  }

  /** Where the first element of one list stands in another order of it. */
  lemma FirstMatch<T>(xs: seq<T>, ys: seq<T>) returns (i: nat)
    requires multiset(xs) == multiset(ys) && xs != []
    ensures i < |ys| && ys[i] == xs[0]
    ensures ys == ys[..i] + [xs[0]] + ys[i + 1..]
    ensures multiset(xs[1..]) == multiset(ys[..i] + ys[i + 1..]) <= multiset(xs)
    ensures |xs[1..]| < |xs|
  {
    assert xs[0] in multiset(ys);
    i :| 0 <= i < |ys| && ys[i] == xs[0];
    SplitOff(ys, i);
    DropFirst(xs);
    assert multiset(ys[..i] + ys[i + 1..]) == multiset(ys) - multiset{xs[0]};
  }

  lemma DropFirst<T>(xs: seq<T>)
    requires xs != []
    ensures multiset(xs[1..]) == multiset(xs) - multiset{xs[0]}
  {
    assert xs == [xs[0]] + xs[1..];
  }

  lemma TwoPlaces<T>(es: seq<T>, a: T, b: T) returns (i: nat, j: nat)
    requires a in multiset(es) && b in multiset(es) && (a != b || multiset(es)[a] >= 2)
    ensures i < |es| && j < |es| && i != j && es[i] == a && es[j] == b
  {
    i :| 0 <= i < |es| && es[i] == a;
    SplitOff(es, i);
    var rest := es[..i] + es[i + 1..];
    assert b in multiset(rest);
    var k :| 0 <= k < |rest| && rest[k] == b;
    j := if k < i then k else k + 1;
  }
}
