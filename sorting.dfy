/** The stable sort the gallery applies with `Array.prototype.sort` and a
    numeric comparator (`a.order - b.order` for ads, `b.date - a.date` for
    albums). A comparator of the form `key(a) - key(b)` sorts ascending by
    `key`; ECMAScript requires `sort` to be stable, so the result is unique:
    the one `SortByKey` defines. */
module Sorting {
  import opened Seqs

  ghost predicate SortedByKey<T>(s: seq<T>, key: T -> int) {
    forall i, j :: 0 <= i < j < |s| ==> key(s[i]) <= key(s[j])
  }

  /** Inserts `x` after every element whose key is at most `key(x)`; `s` is
      scanned from its end, as an insertion sort shifts elements. */
  function InsertByKey<T>(s: seq<T>, x: T, key: T -> int): (r: seq<T>)
    ensures |r| == |s| + 1
  {
    if s == [] || key(s[|s| - 1]) <= key(x) then s + [x]
    else InsertByKey(s[..|s| - 1], x, key) + [s[|s| - 1]]
  }

  lemma {:induction false} InsertMultiset<T>(s: seq<T>, x: T, key: T -> int)
    ensures multiset(InsertByKey(s, x, key)) == multiset(s) + multiset{x}
  {
    if !(s == [] || key(s[|s| - 1]) <= key(x)) {
      assert s == s[..|s| - 1] + [s[|s| - 1]];
      InsertMultiset(s[..|s| - 1], x, key);
    }
  }

  /** The stable ascending sort of `s` by `key`: insertion of each element in turn. */
  function SortByKey<T>(s: seq<T>, key: T -> int): (r: seq<T>)
    ensures |r| == |s|
  {
    if s == [] then []
    else InsertByKey(SortByKey(s[..|s| - 1], key), s[|s| - 1], key)
  }

  /** The result is a permutation of the input. */
  lemma {:induction false} SortByKeyPermutation<T>(s: seq<T>, key: T -> int)
    ensures multiset(SortByKey(s, key)) == multiset(s)
  {
    if s != [] {
      assert s == s[..|s| - 1] + [s[|s| - 1]];
      SortByKeyPermutation(s[..|s| - 1], key);
      InsertMultiset(SortByKey(s[..|s| - 1], key), s[|s| - 1], key);
    }
  }

  /** Inserting below a bound keeps every key below it. */
  lemma {:induction false} InsertBounded<T>(s: seq<T>, x: T, key: T -> int, b: int)
    requires forall i :: 0 <= i < |s| ==> key(s[i]) <= b
    requires key(x) <= b
    ensures forall i :: 0 <= i < |InsertByKey(s, x, key)| ==> key(InsertByKey(s, x, key)[i]) <= b
  {
    if !(s == [] || key(s[|s| - 1]) <= key(x)) {
      InsertBounded(s[..|s| - 1], x, key, b);
    }
  }

  lemma {:induction false} InsertKeepsSorted<T>(s: seq<T>, x: T, key: T -> int)
    requires SortedByKey(s, key)
    ensures SortedByKey(InsertByKey(s, x, key), key)
  {
    if s != [] && key(s[|s| - 1]) > key(x) {
      var s' := s[..|s| - 1];
      var last := s[|s| - 1];
      InsertKeepsSorted(s', x, key);
      InsertBounded(s', x, key, key(last));
    }
  }

  /** The result is sorted ascending by `key`. */
  lemma {:induction false} SortByKeySorted<T>(s: seq<T>, key: T -> int)
    ensures SortedByKey(SortByKey(s, key), key)
  {
    if s != [] {
      SortByKeySorted(s[..|s| - 1], key);
      InsertKeepsSorted(SortByKey(s[..|s| - 1], key), s[|s| - 1], key);
    }
  }

  /** The elements whose key is `k`. */
  function KeyIs<T>(key: T -> int, k: int): T -> bool { (y: T) => key(y) == k }

  /** Inserting `x` moves it only past elements with a larger key, so among
      the elements of any one key it lands after those of `s`. */
  lemma {:induction false} InsertStable<T>(s: seq<T>, x: T, key: T -> int, k: int)
    ensures Filter(InsertByKey(s, x, key), KeyIs(key, k))
         == Filter(s, KeyIs(key, k)) + Filter([x], KeyIs(key, k))
  {
    var p := KeyIs(key, k);
    if s == [] || key(s[|s| - 1]) <= key(x) {
      FilterAppend(s, [x], p);
    } else {
      var s' := s[..|s| - 1];
      var last := s[|s| - 1];
      var r' := InsertByKey(s', x, key);
      assert s == s' + [last];
      // `x` and `last` have different keys, so one of them is filtered out
      assert Filter([x], p) == [] || Filter([last], p) == [];
      calc {
        Filter(InsertByKey(s, x, key), p);
        { FilterAppend(r', [last], p); }
        Filter(r', p) + Filter([last], p);
        { InsertStable(s', x, key, k); }
        Filter(s', p) + Filter([x], p) + Filter([last], p);
        Filter(s', p) + Filter([last], p) + Filter([x], p);
        { FilterAppend(s', [last], p); }
        Filter(s, p) + Filter([x], p);
      }
    }
  }

  /** Stability: the elements with any one key appear in the result in the
      order they had in the input. */
  lemma {:induction false} SortByKeyStable<T>(s: seq<T>, key: T -> int, k: int)
    ensures Filter(SortByKey(s, key), KeyIs(key, k)) == Filter(s, KeyIs(key, k))
  {
    if s != [] {
      var s' := s[..|s| - 1];
      var x := s[|s| - 1];
      assert s == s' + [x];
      SortByKeyStable(s', key, k);
      InsertStable(SortByKey(s', key), x, key, k);
      FilterAppend(s', [x], KeyIs(key, k));
    }
  }

  /** Where every element from `j` on has a larger key than `x` and the one
      before `j` does not, `x` is inserted at position `j`. */
  lemma {:induction false} InsertAt<T>(s: seq<T>, x: T, key: T -> int, j: nat)
    requires j <= |s|
    requires j == 0 || key(s[j - 1]) <= key(x)
    requires forall k :: j <= k < |s| ==> key(s[k]) > key(x)
    ensures InsertByKey(s, x, key) == s[..j] + [x] + s[j..]
    decreases |s|
  {
    if j == |s| {
      assert s[..j] == s && s[j..] == [];
    } else {
      var s' := s[..|s| - 1];
      assert s'[..j] == s[..j];
      InsertAt(s', x, key, j);
      assert s[j..] == s'[j..] + [s[|s| - 1]];
    }
  }

  /** Moves `a[i]` left past every element of `a[..i]` with a larger key. */
  method InsertInPlace<T>(a: array<T>, i: nat, key: T -> int)
    requires i < a.Length
    modifies a
    ensures a[..i + 1] == InsertByKey(old(a[..i]), old(a[i]), key)
    ensures forall k :: i < k < a.Length ==> a[k] == old(a[k])
  {
    var x := a[i];
    ghost var sorted := a[..i];
    var j := i;
    while j > 0 && key(a[j - 1]) > key(x)
      invariant 0 <= j <= i
      invariant forall k :: 0 <= k < j ==> a[k] == sorted[k]
      invariant forall k :: j < k <= i ==> a[k] == sorted[k - 1]
      invariant forall k :: j <= k < i ==> key(sorted[k]) > key(x)
      invariant forall k :: i < k < a.Length ==> a[k] == old(a[k])
    {
      a[j] := a[j - 1];
      j := j - 1;
    }
    a[j] := x;
    InsertAt(sorted, x, key, j);
    assert a[..i + 1] == sorted[..j] + [x] + sorted[j..];
  }

  /** `a.sort((u, v) => key(u) - key(v))`, in place: an insertion sort. */
  method SortInPlace<T>(a: array<T>, key: T -> int)
    modifies a
    ensures a[..] == SortByKey(old(a[..]), key)
  {
    ghost var s := a[..];
    var i := 0;
    while i < a.Length
      invariant 0 <= i <= a.Length
      invariant a[..i] == SortByKey(s[..i], key)
      invariant forall k :: i <= k < a.Length ==> a[k] == s[k]
    {
      assert SortByKey(s[..i + 1], key) == InsertByKey(SortByKey(s[..i], key), s[i], key) by {
        assert s[..i + 1][..i] == s[..i];
      }
      InsertInPlace(a, i, key);
      i := i + 1;
    }
    assert s[..a.Length] == s;
  }
}
