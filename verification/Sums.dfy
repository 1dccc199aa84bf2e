/** Finite sums, and the facts about them that the ledger's totals rest on. */
module Sums {

  function Sum(s: seq<int>): int {
    if |s| == 0 then 0 else Sum(s[..|s| - 1]) + s[|s| - 1]
  }

  /** The sum of a measure over the rows of a table. */
  function SumBy<T>(s: seq<T>, f: T -> int): int {
    if |s| == 0 then 0 else SumBy(s[..|s| - 1], f) + f(s[|s| - 1])
  }

  function Range(n: nat): (r: seq<int>)
    ensures |r| == n
    ensures forall i :: 0 <= i < n ==> r[i] == i
  {
    seq(n, i => i)
  }

  lemma SumByAppend<T>(s: seq<T>, x: T, f: T -> int)
    ensures SumBy(s + [x], f) == SumBy(s, f) + f(x)
  {
    assert (s + [x])[..|s|] == s;
  }

  lemma {:induction false} SumByConcat<T>(a: seq<T>, b: seq<T>, f: T -> int)
    ensures SumBy(a + b, f) == SumBy(a, f) + SumBy(b, f)
  {
    if b == [] {
      assert a + b == a;
    } else {
      var n := |b| - 1;
      assert a + b == (a + b[..n]) + [b[n]];
      SumByAppend(a + b[..n], b[n], f);
      SumByConcat(a, b[..n], f);
    }
  }

  lemma {:induction false} SumByCongruent<T>(s: seq<T>, f: T -> int, g: T -> int)
    requires forall i :: 0 <= i < |s| ==> f(s[i]) == g(s[i])
    ensures SumBy(s, f) == SumBy(s, g)
  {
    if s != [] {
      SumByCongruent(s[..|s| - 1], f, g);
    }
  }

  lemma {:induction false} SumByAdds<T>(s: seq<T>, f: T -> int, g: T -> int, h: T -> int)
    requires forall i :: 0 <= i < |s| ==> h(s[i]) == f(s[i]) + g(s[i])
    ensures SumBy(s, h) == SumBy(s, f) + SumBy(s, g)
  {
    if s != [] {
      SumByAdds(s[..|s| - 1], f, g, h);
    }
  }

  lemma {:induction false} SumByScales<T>(s: seq<T>, k: int, f: T -> int, g: T -> int)
    requires forall i :: 0 <= i < |s| ==> g(s[i]) == k * f(s[i])
    ensures SumBy(s, g) == k * SumBy(s, f)
  {
    if s != [] {
      SumByScales(s[..|s| - 1], k, f, g);
      var a, b := SumBy(s[..|s| - 1], f), f(s[|s| - 1]);
      assert k * (a + b) == k * a + k * b;
    }
  }

  lemma {:induction false} SumByMonotone<T>(s: seq<T>, f: T -> int, g: T -> int)
    requires forall i :: 0 <= i < |s| ==> f(s[i]) <= g(s[i])
    ensures SumBy(s, f) <= SumBy(s, g)
  {
    if s != [] {
      SumByMonotone(s[..|s| - 1], f, g);
    }
  }

  lemma {:induction false} SumByZero<T>(s: seq<T>, f: T -> int)
    requires forall i :: 0 <= i < |s| ==> f(s[i]) == 0
    ensures SumBy(s, f) == 0
  {
    if s != [] {
      SumByZero(s[..|s| - 1], f);
    }
  }

  /** Changing the measure at one row changes the sum by that row's change. */
  lemma {:induction false} SumByChangeOne<T>(s: seq<T>, k: nat, f: T -> int, g: T -> int)
    requires k < |s|
    requires forall i :: 0 <= i < |s| && i != k ==> f(s[i]) == g(s[i])
    ensures SumBy(s, g) == SumBy(s, f) - f(s[k]) + g(s[k])
  {
    var n := |s| - 1;
    if k == n {
      SumByCongruent(s[..n], f, g);
    } else {
      SumByChangeOne(s[..n], k, f, g);
    }
  }

  lemma SumByOnlyOne<T>(s: seq<T>, k: nat, f: T -> int)
    requires k < |s| && (forall i :: 0 <= i < |s| && i != k ==> f(s[i]) == 0)
    ensures SumBy(s, f) == f(s[k])
  {
    SumByZero(s, (_: T) => 0);
    SumByChangeOne(s, k, (_: T) => 0, f);
  }

  lemma SumByRemove<T>(s: seq<T>, k: nat, f: T -> int)
    requires k < |s|
    ensures SumBy(s, f) == SumBy(s[..k] + s[k + 1..], f) + f(s[k])
  {
    var front, back := s[..k], s[k + 1..];
    SumByAppend(front, s[k], f);
    SumByConcat(front + [s[k]], back, f);
    SumByConcat(front, back, f);
    assert (front + [s[k]]) + back == s;
  }

  /** A row of a nonempty table can be found and taken out of any reordering of it. */
  lemma TakeLastOut<T>(a: seq<T>, b: seq<T>) returns (k: nat)
    requires a != [] && multiset(a) == multiset(b)
    ensures k < |b| && b[k] == a[|a| - 1]
    ensures multiset(a[..|a| - 1]) == multiset(b[..k] + b[k + 1..])
  {
    var x := a[|a| - 1];
    assert a == a[..|a| - 1] + [x];
    assert x in multiset(b);
    k :| 0 <= k < |b| && b[k] == x;
    var front, back := b[..k], b[k + 1..];
    assert b == front + [x] + back;
    assert multiset(front + [x] + back) == multiset(front + back) + multiset{x};
    assert multiset(a[..|a| - 1]) == multiset(a) - multiset{x};
  }

  /** A sum does not depend on the order of the rows. */
  lemma {:induction false} SumByPermutation<T>(a: seq<T>, b: seq<T>, f: T -> int)
    requires multiset(a) == multiset(b)
    ensures SumBy(a, f) == SumBy(b, f)
    decreases |a|
  {
    if a == [] {
      assert |multiset(b)| == 0;
    } else {
      var k := TakeLastOut(a, b);
      SumByPermutation(a[..|a| - 1], b[..k] + b[k + 1..], f);
      SumByRemove(b, k, f);
    }
  }
}
