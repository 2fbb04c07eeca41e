/** `Array.prototype.sort` with a numeric comparator, as the services call it: a stable sort.
    `xs.sort((a, b) => key(b) - key(a))` orders by key, largest first, and keeps the original
    order among elements with equal keys. It is modelled as a stable insertion sort. */
module Sorting {

  /** Non-increasing by key. */
  predicate SortedDesc<T>(s: seq<T>, key: T -> int)
  {
    forall i, j :: 0 <= i < j < |s| ==> key(s[i]) >= key(s[j])
  }

  /** The elements whose key is k, in their order. Stability says the sort leaves this unchanged. */
  function WithKey<T>(s: seq<T>, key: T -> int, k: int): seq<T>
  {
    if |s| == 0 then []
    else (if key(s[0]) == k then [s[0]] else []) + WithKey(s[1..], key, k)
  }

  /** Places x in front of the first element whose key is not larger than x's. */
  function Insert<T>(x: T, s: seq<T>, key: T -> int): (r: seq<T>)
    ensures |r| == |s| + 1
    ensures multiset(r) == multiset(s) + multiset{x}
    ensures forall i :: 0 <= i < |r| ==> r[i] == x || r[i] in s
  {
    if |s| == 0 || key(s[0]) <= key(x) then [x] + s
    else
      assert s == [s[0]] + s[1..];
      [s[0]] + Insert(x, s[1..], key)
  }

  lemma {:induction false} InsertSorted<T>(x: T, s: seq<T>, key: T -> int)
    requires SortedDesc(s, key)
    ensures SortedDesc(Insert(x, s, key), key)
  {
    if |s| > 0 && key(s[0]) > key(x) {
      var rest := Insert(x, s[1..], key);
      InsertSorted(x, s[1..], key);
      forall i | 0 <= i < |rest| ensures key(rest[i]) <= key(s[0]) {
        if rest[i] != x {
          var j :| 0 <= j < |s[1..]| && s[1..][j] == rest[i];
          assert s[j + 1] == rest[i];
        }
      }
    }
  }

  /** The result of the stable sort, largest key first. */
  function SortDesc<T>(s: seq<T>, key: T -> int): (r: seq<T>)
    ensures multiset(r) == multiset(s)
    ensures |r| == |s|
    ensures SortedDesc(r, key)
  {
    if |s| == 0 then []
    else
      assert s == [s[0]] + s[1..];
      var rest := SortDesc(s[1..], key);
      InsertSorted(s[0], rest, key);
      Insert(s[0], rest, key)
  }

  lemma {:induction false} InsertWithKey<T>(x: T, s: seq<T>, key: T -> int, k: int)
    ensures WithKey(Insert(x, s, key), key, k)
         == (if key(x) == k then [x] else []) + WithKey(s, key, k)
  {
    var fx: seq<T> := if key(x) == k then [x] else [];
    if |s| == 0 || key(s[0]) <= key(x) {
      var t := [x] + s;
      assert t[0] == x && t[1..] == s;
      assert WithKey(t, key, k) == fx + WithKey(s, key, k);
    } else {
      var rest := Insert(x, s[1..], key);
      var t := [s[0]] + rest;
      assert t[0] == s[0] && t[1..] == rest;
      var f0: seq<T> := if key(s[0]) == k then [s[0]] else [];
      assert WithKey(t, key, k) == f0 + WithKey(rest, key, k);
      InsertWithKey(x, s[1..], key, k);
      assert WithKey(rest, key, k) == fx + WithKey(s[1..], key, k);
      assert WithKey(s, key, k) == f0 + WithKey(s[1..], key, k);
      if key(x) == k {
        assert f0 == [];
      } else {
        assert fx == [];
      }
    }
  }

  /** Stability: for every key value, the elements with that key keep their relative order. */
  lemma {:induction false} SortDescIsStable<T>(s: seq<T>, key: T -> int, k: int)
    ensures WithKey(SortDesc(s, key), key, k) == WithKey(s, key, k)
  {
    if |s| > 0 {
      SortDescIsStable(s[1..], key, k);
      InsertWithKey(s[0], SortDesc(s[1..], key), key, k);
    }
  }

  /** Every element of the sorted sequence comes from the input. */
  lemma SortedElementFromInput<T>(s: seq<T>, key: T -> int, i: int)
    requires 0 <= i < |s|
    ensures |SortDesc(s, key)| == |s|
    ensures exists j :: 0 <= j < |s| && s[j] == SortDesc(s, key)[i]
  {
    var r := SortDesc(s, key);
    assert r[i] in multiset(r);
    assert r[i] in multiset(s);
  }

  /** The first element of a sorted permutation has the largest key of all. */
  lemma HeadIsMaximal<T>(s: seq<T>, key: T -> int, i: int)
    requires 0 <= i < |s|
    ensures |SortDesc(s, key)| > 0
    ensures key(SortDesc(s, key)[0]) >= key(s[i])
  {
    var r := SortDesc(s, key);
    assert s[i] in multiset(s);
    assert s[i] in multiset(r);
    var j :| 0 <= j < |r| && r[j] == s[i];
  }

  /** Taking the first k elements of the sorted sequence keeps the k largest: an input element
      left out has a key no larger than any kept one. */
  lemma PrefixKeepsLargest<T>(s: seq<T>, key: T -> int, k: nat, x: T)
    requires x in s
    ensures k >= |s| ==> x in SortDesc(s, key)
    ensures k < |s| ==> x in SortDesc(s, key)[..k]
                        || forall i :: 0 <= i < k ==> key(SortDesc(s, key)[i]) >= key(x)
  {
    var r := SortDesc(s, key);
    assert x in multiset(s);
    assert x in multiset(r);
    var j :| 0 <= j < |r| && r[j] == x;
    if k < |s| && j < k {
      assert r[..k][j] == x;
    }
  }
}
