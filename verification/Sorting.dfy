/** Sorting the keys of a dictionary, for the summaries that order records by their index. */
module Sorting {
  predicate Ascends(numbers: seq<int>) {
    forall i, j :: 0 <= i < j < |numbers| ==> numbers[i] < numbers[j]
  }

  /** `sorted` lists the keys of `m`, each once, in ascending order. */
  ghost predicate Lists<T>(sorted: seq<int>, m: map<int, T>) {
    Ascends(sorted)
    && (forall n :: n in m ==> n in sorted)
    && (forall i :: 0 <= i < |sorted| ==> sorted[i] in m)
  }

  /** `sorted`, for keys given in any order and possibly more than once. */
  method Sorted(keys: seq<int>) returns (sorted: seq<int>)
    ensures Ascends(sorted)
    ensures forall k :: 0 <= k < |keys| ==> keys[k] in sorted
    ensures forall k :: 0 <= k < |sorted| ==> sorted[k] in keys
  {
    sorted := [];
    var i := 0;
    while i < |keys|
      invariant 0 <= i <= |keys| && Ascends(sorted)
      invariant forall k :: 0 <= k < i ==> keys[k] in sorted
      invariant forall k :: 0 <= k < |sorted| ==> sorted[k] in keys
    {
      var at := Place(sorted, keys[i]);
      if at == |sorted| || sorted[at] != keys[i] {
        InsertKeepsOrder(sorted, at, keys[i]);
        sorted := sorted[..at] + [keys[i]] + sorted[at..];
      }
      i := i + 1;
    }
  }

  /** Where `n` belongs. */
  method Place(sorted: seq<int>, n: int) returns (at: nat)
    requires Ascends(sorted)
    ensures at <= |sorted|
    ensures forall k :: 0 <= k < at ==> sorted[k] < n
    ensures forall k :: at <= k < |sorted| ==> n <= sorted[k]
  {
    at := 0;
    while at < |sorted| && sorted[at] < n
      invariant at <= |sorted| && forall k :: 0 <= k < at ==> sorted[k] < n
    {
      at := at + 1;
    }
  }

  lemma InsertKeepsOrder(sorted: seq<int>, at: nat, n: int)
    requires Ascends(sorted) && at <= |sorted|
    requires forall k :: 0 <= k < at ==> sorted[k] < n
    requires forall k :: at <= k < |sorted| ==> n < sorted[k]
    ensures var longer := sorted[..at] + [n] + sorted[at..];
            Ascends(longer) && longer[at] == n
            && (forall m :: m in sorted ==> m in longer)
            && (forall k :: 0 <= k < |longer| ==> longer[k] == n || longer[k] in sorted)
  {
    var longer := sorted[..at] + [n] + sorted[at..];
    forall m | m in sorted ensures m in longer {
      var k :| 0 <= k < |sorted| && sorted[k] == m;
      assert longer[if k < at then k else k + 1] == m;
    }
  }

  predicate Covers(b: seq<int>, a: seq<int>) {
    forall i :: 0 <= i < |a| ==> a[i] in b
  }

  /** Ascending listings of the same numbers are the same. */
  lemma {:induction false} ListingsAgree(a: seq<int>, b: seq<int>)
    requires Ascends(a) && Ascends(b) && Covers(a, b) && Covers(b, a)
    ensures a == b
  {
    if |a| == 0 {
      if |b| > 0 {
        CoveredBySome(a, b);
      }
    } else {
      var k :| 0 <= k < |b| && b[k] == a[0];
      var m, n := |a| - 1, |b| - 1;
      LastOf(a, b[n]);
      LastOf(b, a[m]);
      WithoutLast(a, b);
      WithoutLast(b, a);
      ListingsAgree(a[..m], b[..n]);
      assert a == a[..m] + [a[m]] && b == b[..n] + [b[n]];
    }
  }

  lemma CoveredBySome(b: seq<int>, a: seq<int>)
    requires Covers(b, a) && |a| > 0
    ensures |b| > 0
  {
    assert a[0] in b;
  }

  lemma LastOf(s: seq<int>, x: int)
    requires Ascends(s) && x in s
    ensures x <= s[|s| - 1]
  {}

  lemma WithoutLast(s: seq<int>, b: seq<int>)
    requires Ascends(s) && s != [] && Ascends(b) && Covers(b, s) && b != [] && b[|b| - 1] == s[|s| - 1]
    ensures Covers(b[..|b| - 1], s[..|s| - 1])
  {
    var shorter := s[..|s| - 1];
    forall i | 0 <= i < |shorter| ensures shorter[i] in b[..|b| - 1] {
      assert s[i] in b && s[i] < s[|s| - 1];
      var k :| 0 <= k < |b| && b[k] == s[i];
      assert b[..|b| - 1][k] == s[i];
    }
  }
}
