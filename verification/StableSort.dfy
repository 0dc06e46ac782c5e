/** The library's stable `sort_by_key`, as an insertion sort. */
module StableSort {
  import opened Common

  predicate Sorted<T(!new)>(s: seq<T>, key: T -> nat)
  {
    forall i, j :: 0 <= i < j < |s| ==> key(s[i]) <= key(s[j])
  }

  /** Behind every entry with the same key. */
  function Insert<T>(s: seq<T>, key: T -> nat, x: T): (r: seq<T>)
  {
    if s == [] then [x]
    else if key(s[|s| - 1]) <= key(x) then s + [x]
    else Insert(s[..|s| - 1], key, x) + [s[|s| - 1]]
  }

  function SortByKey<T>(s: seq<T>, key: T -> nat): (r: seq<T>)
  {
    if s == [] then [] else Insert(SortByKey(s[..|s| - 1], key), key, s[|s| - 1])
  }

  lemma InsertBehind<T>(s: seq<T>, key: T -> nat, y: T, x: T)
    ensures Insert(s + [y], key, x) == if key(y) <= key(x) then s + [y] + [x] else Insert(s, key, x) + [y]
  {
    assert (s + [y])[..|s|] == s;
  }

  lemma MultisetOfLast<T>(s: seq<T>)
    requires s != []
    ensures multiset(s) == multiset(s[..|s| - 1]) + multiset{s[|s| - 1]}
  {
    SplitAt(s, |s| - 1);
    assert s[|s| - 1..] == [s[|s| - 1]];
  }

  lemma {:induction false} InsertIsPermutation<T>(s: seq<T>, key: T -> nat, x: T)
    ensures multiset(Insert(s, key, x)) == multiset(s) + multiset{x}
  {
    if s != [] && key(x) < key(s[|s| - 1]) {
      InsertIsPermutation(s[..|s| - 1], key, x);
      MultisetOfLast(s);
    }
  }

  lemma {:induction false} InsertKeepsSorted<T(!new)>(s: seq<T>, key: T -> nat, x: T, bound: nat)
    requires Sorted(s, key) && key(x) <= bound && forall i :: 0 <= i < |s| ==> key(s[i]) <= bound
    ensures Sorted(Insert(s, key, x), key)
    ensures forall i :: 0 <= i < |Insert(s, key, x)| ==> key(Insert(s, key, x)[i]) <= bound
  {
    if s != [] && key(x) < key(s[|s| - 1]) {
      InsertKeepsSorted(s[..|s| - 1], key, x, key(s[|s| - 1]));
    }
  }

  function MaxKey<T>(s: seq<T>, key: T -> nat, x: T): (m: nat)
    ensures key(x) <= m && forall i :: 0 <= i < |s| ==> key(s[i]) <= m
  {
    if s == [] then key(x)
    else
      var m := MaxKey(s[..|s| - 1], key, x);
      if m < key(s[|s| - 1]) then key(s[|s| - 1]) else m
  }

  /** The result is sorted and holds the same entries. */
  lemma {:induction false} SortSorts<T(!new)>(s: seq<T>, key: T -> nat)
    ensures Sorted(SortByKey(s, key), key)
    ensures multiset(SortByKey(s, key)) == multiset(s)
  {
    if s != [] {
      var n := |s| - 1;
      SortSorts(s[..n], key);
      var sorted := SortByKey(s[..n], key);
      InsertKeepsSorted(sorted, key, s[n], MaxKey(sorted, key, s[n]));
      InsertIsPermutation(sorted, key, s[n]);
      MultisetOfLast(s);
    }
  }

  /** A stable sort leaves sorted input alone, equal keys included. */
  lemma {:induction false} SortKeepsSorted<T(!new)>(s: seq<T>, key: T -> nat)
    requires Sorted(s, key)
    ensures SortByKey(s, key) == s
  {
    if s != [] {
      var n := |s| - 1;
      SortKeepsSorted(s[..n], key);
      SplitAt(s, n);
      assert s[n..] == [s[n]];
    }
  }

  lemma LastsAgree<T(!new)>(a: seq<T>, b: seq<T>, key: T -> nat)
    requires Sorted(a, key) && multiset(a) == multiset(b) && |a| == |b| && b != []
    requires forall i :: 0 <= i < |b| ==> key(b[i]) == i
    ensures a[|a| - 1] == b[|b| - 1]
  {
    var n := |b| - 1;
    assert b[n] in multiset(b) && a[n] in multiset(a);
    assert b[n] in multiset(a) && a[n] in multiset(b);
    var i :| 0 <= i < |a| && a[i] == b[n];
    var j :| 0 <= j < |b| && b[j] == a[n];
    assert key(a[i]) <= key(a[n]);
  }

  /** With the keys 0, 1, 2, ... there is only one sorted order. */
  lemma {:induction false} SortedByIndexIsUnique<T(!new)>(a: seq<T>, b: seq<T>, key: T -> nat)
    requires Sorted(a, key) && multiset(a) == multiset(b) && |a| == |b|
    requires forall i :: 0 <= i < |b| ==> key(b[i]) == i
    ensures a == b
  {
    if b != [] {
      LastsAgree(a, b, key);
      MultisetOfLast(a);
      MultisetOfLast(b);
      SameRest(multiset(a[..|a| - 1]), multiset(b[..|b| - 1]), a[|a| - 1]);
      SortedByIndexIsUnique(a[..|a| - 1], b[..|b| - 1], key);
      SplitAt(a, |a| - 1);
      SplitAt(b, |b| - 1);
      assert a[|a| - 1..] == b[|b| - 1..];
    }
  }

  lemma SameRest<T>(a: multiset<T>, b: multiset<T>, x: T)
    requires a + multiset{x} == b + multiset{x}
    ensures a == b
  {
    assert a == (a + multiset{x}) - multiset{x};
    assert b == (b + multiset{x}) - multiset{x};
  }
}
