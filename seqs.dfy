/**
 * The list transforms the handlers are built from: `Array.prototype.filter`, `find` by a
 * string key, and first-occurrence de-duplication.
 */
module Seqs {
  import opened Types

  /** `a` is `b` with some elements dropped and the rest kept in their order. */
  predicate IsSubseq<T(==)>(a: seq<T>, b: seq<T>)
    decreases |b|
  {
    if b == [] then a == []
    else (a != [] && a[0] == b[0] && IsSubseq(a[1..], b[1..])) || IsSubseq(a, b[1..])
  }

  /** `s.filter(p)`: the elements of `s` that satisfy `p`, in their original order. */
  function Filter<T(==)>(s: seq<T>, p: T -> bool): (r: seq<T>)
    ensures |r| <= |s|
    ensures forall i :: 0 <= i < |r| ==> p(r[i])
    ensures forall x :: x in r ==> x in s
    ensures forall x :: x in s && p(x) ==> x in r
    ensures IsSubseq(r, s)
    ensures (forall i :: 0 <= i < |s| ==> p(s[i])) ==> r == s
    decreases |s|
  {
    if s == [] then []
    else
      if p(s[0]) then [s[0]] + Filter(s[1..], p)
      else Filter(s[1..], p)
  }

  /** Each element that passes is kept as often as it occurs, and nothing else is kept. */
  lemma {:induction false} FilterCounts<T>(s: seq<T>, p: T -> bool, x: T)
    ensures multiset(Filter(s, p))[x] == if p(x) then multiset(s)[x] else 0
    decreases |s|
  {
    if s != [] {
      FilterCounts(s[1..], p, x);
      assert s == [s[0]] + s[1..];
      assert multiset(s)[x] == multiset([s[0]])[x] + multiset(s[1..])[x];
      if p(s[0]) {
        var rest := Filter(s[1..], p);
        assert multiset([s[0]] + rest)[x] == multiset([s[0]])[x] + multiset(rest)[x];
      }
    }
  }

  lemma {:induction false} FilterConcat<T>(a: seq<T>, b: seq<T>, p: T -> bool)
    ensures Filter(a + b, p) == Filter(a, p) + Filter(b, p)
    decreases |a|
  {
    if a == [] {
      assert a + b == b;
    } else {
      assert (a + b)[1..] == a[1..] + b;
      FilterConcat(a[1..], b, p);
    }
  }

  /** `s.find(x => key(x) === k)`: the first element whose key is `k`, if any. */
  function Find<T>(s: seq<T>, key: T -> string, k: string): (r: Option<T>)
    ensures r.Some? ==> r.value in s && key(r.value) == k
    ensures r.None? <==> forall i :: 0 <= i < |s| ==> key(s[i]) != k
    decreases |s|
  {
    if s == [] then None
    else if key(s[0]) == k then Some(s[0])
    else Find(s[1..], key, k)
  }

  /** The element found is the first one carrying the key. */
  lemma {:induction false} FindIsFirst<T>(s: seq<T>, key: T -> string, k: string) returns (i: nat)
    requires Find(s, key, k).Some?
    ensures i < |s| && s[i] == Find(s, key, k).value
    ensures forall j :: 0 <= j < i ==> key(s[j]) != k
    decreases |s|
  {
    if key(s[0]) == k {
      i := 0;
    } else {
      var i' := FindIsFirst(s[1..], key, k);
      i := i' + 1;
      forall j | 0 <= j < i ensures key(s[j]) != k {
        if j > 0 { assert s[j] == s[1..][j - 1]; }
      }
    }
  }

  /** No two elements share a key. */
  predicate DistinctKeys<T>(s: seq<T>, key: T -> string) {
    forall i, j :: 0 <= i < j < |s| ==> key(s[i]) != key(s[j])
  }

  /** Filtering never makes two elements share a key. */
  lemma {:induction false} FilterKeepsDistinctKeys<T>(s: seq<T>, p: T -> bool, key: T -> string)
    requires DistinctKeys(s, key)
    ensures DistinctKeys(Filter(s, p), key)
    decreases |s|
  {
    if s != [] {
      var rest := Filter(s[1..], p);
      FilterKeepsDistinctKeys(s[1..], p, key);
      if p(s[0]) {
        forall j | 0 <= j < |rest| ensures key(rest[j]) != key(s[0]) {
          var m :| 0 <= m < |s[1..]| && s[1..][m] == rest[j];
          assert s[m + 1] == rest[j];
        }
      }
    }
  }

  /** With distinct keys, `find` returns the one element carrying the key. */
  lemma FindUnique<T>(s: seq<T>, key: T -> string, x: T)
    requires DistinctKeys(s, key) && x in s
    ensures Find(s, key, key(x)) == Some(x)
  {
    var i := FindIsFirst(s, key, key(x));
    var m :| 0 <= m < |s| && s[m] == x;
    if i < m {
      assert false;
    } else if m < i {
      assert false;
    }
  }

  /** An element appended after all others is found by its key when no earlier element has it. */
  lemma {:induction false} FindAppended<T>(s: seq<T>, key: T -> string, x: T)
    requires forall i :: 0 <= i < |s| ==> key(s[i]) != key(x)
    ensures Find(s + [x], key, key(x)) == Some(x)
    decreases |s|
  {
    if s == [] {
      assert s + [x] == [x];
    } else {
      assert (s + [x])[1..] == s[1..] + [x];
      FindAppended(s[1..], key, x);
    }
  }

  /** `s.indexOf(x)` for an element that occurs: the position of its first occurrence. */
  function IndexOf<T(==)>(s: seq<T>, x: T): (i: nat)
    requires x in s
    ensures i < |s| && s[i] == x
    ensures forall j :: 0 <= j < i ==> s[j] != x
    decreases |s|
  {
    if s[0] == x then 0 else 1 + IndexOf(s[1..], x)
  }

  /** Appending leaves the first occurrence of an element already present where it was. */
  lemma IndexOfAppend<T>(s: seq<T>, y: T, x: T)
    requires x in s
    ensures IndexOf(s + [y], x) == IndexOf(s, x)
  {
    var a, b := IndexOf(s + [y], x), IndexOf(s, x);
    assert (s + [y])[b] == x;
    assert a <= b;
    assert s[a] == x;
  }

  predicate NoDuplicates<T(==)>(s: seq<T>) {
    forall i, j :: 0 <= i < j < |s| ==> s[i] != s[j]
  }

  /** `Array.from(new Set(s))`: one copy of each element, in the order of first occurrence. */
  function Distinct<T(==)>(s: seq<T>): (r: seq<T>)
    ensures NoDuplicates(r)
    ensures forall x :: x in r ==> x in s
    ensures forall x :: x in s ==> x in r
    ensures NoDuplicates(s) ==> r == s
    decreases |s|
  {
    if s == [] then []
    else
      var prefix := Distinct(s[..|s| - 1]);
      var last := s[|s| - 1];
      assert s == s[..|s| - 1] + [last];
      if last in prefix then prefix else prefix + [last]
  }

  /** The elements are listed in the order of their first occurrence in `s`. */
  lemma {:induction false} DistinctKeepsFirstOccurrenceOrder<T>(s: seq<T>, i: nat, j: nat)
    requires i < j < |Distinct(s)|
    ensures IndexOf(s, Distinct(s)[i]) < IndexOf(s, Distinct(s)[j])
    decreases |s|
  {
    var init := s[..|s| - 1];
    var last := s[|s| - 1];
    var prefix := Distinct(init);
    var r := Distinct(s);
    assert s == init + [last];
    if j < |prefix| {
      assert r[i] == prefix[i] && r[j] == prefix[j];
      DistinctKeepsFirstOccurrenceOrder(init, i, j);
      IndexOfAppend(init, last, r[i]);
      IndexOfAppend(init, last, r[j]);
    } else {
      assert last !in prefix && r == prefix + [last] && j == |prefix|;
      assert r[i] == prefix[i];
      IndexOfAppend(init, last, r[i]);
      assert last !in init;
      assert IndexOf(s, last) == |init|;
    }
  }
}
