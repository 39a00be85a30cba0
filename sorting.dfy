/** Python's `list.sort(key=k, reverse=True)` and `sorted(..., key=k,
    reverse=True)` on an integer key: a stable sort into non-increasing key
    order. It is modelled as insertion sort and specified by what makes the
    result unique: the keys do not increase, and the elements that share a
    key appear in the same order as in the input. */
module Sorting {

  /** The elements of `s` whose key is `k`, in the order `s` has them. */
  function WithKey<T>(s: seq<T>, key: T -> int, k: int): seq<T>
  {
    if s == [] then []
    else if key(s[0]) == k then [s[0]] + WithKey(s[1..], key, k)
    else WithKey(s[1..], key, k)
  }

  ghost predicate NonIncreasing<T>(s: seq<T>, key: T -> int)
  {
    forall i, j :: 0 <= i < j < |s| ==> key(s[i]) >= key(s[j])
  }

  /** A sequence of `f` applied to each element. */
  function Image<T, U>(s: seq<T>, f: T -> U): (r: seq<U>)
    ensures |r| == |s| && forall i :: 0 <= i < |s| ==> r[i] == f(s[i])
  {
    if s == [] then [] else [f(s[0])] + Image(s[1..], f)
  }

  /** Places `x` in front of the first element whose key is not larger
      than `x`'s, so that `x` precedes the elements that tie with it. */
  function InsertDesc<T>(x: T, s: seq<T>, key: T -> int): (r: seq<T>)
    ensures |r| == |s| + 1
  {
    if s == [] || key(s[0]) <= key(x) then [x] + s
    else [s[0]] + InsertDesc(x, s[1..], key)
  }

  lemma {:induction false} InsertDescMultiset<T>(x: T, s: seq<T>, key: T -> int)
    ensures multiset(InsertDesc(x, s, key)) == multiset(s) + multiset{x}
  {
    if s != [] && key(s[0]) > key(x) {
      InsertDescMultiset(x, s[1..], key);
      assert s == [s[0]] + s[1..];
    }
  }

  /** Every element of the insertion is `x` or an element of `s`. */
  lemma InsertDescMember<T>(x: T, s: seq<T>, key: T -> int, y: T)
    requires y in InsertDesc(x, s, key)
    ensures y == x || y in s
  {
    InsertDescMultiset(x, s, key);
    assert y in multiset(InsertDesc(x, s, key));
  }

  lemma {:induction false} InsertDescSorted<T>(x: T, s: seq<T>, key: T -> int)
    requires NonIncreasing(s, key)
    ensures NonIncreasing(InsertDesc(x, s, key), key)
  {
    if s != [] && key(s[0]) > key(x) {
      InsertDescSorted(x, s[1..], key);
      var tail := InsertDesc(x, s[1..], key);
      forall j | 0 <= j < |tail| ensures key(tail[j]) <= key(s[0]) {
        InsertDescMember(x, s[1..], key, tail[j]);
      }
    }
  }

  /** Inserting `x` adds it to the front of its own key's subsequence and
      leaves the other keys' subsequences alone. */
  lemma {:induction false} InsertDescWithKey<T>(x: T, s: seq<T>, key: T -> int, k: int)
    ensures WithKey(InsertDesc(x, s, key), key, k) ==
            if key(x) == k then [x] + WithKey(s, key, k) else WithKey(s, key, k)
  {
    if s == [] || key(s[0]) <= key(x) {
      assert ([x] + s)[1..] == s;
    } else {
      InsertDescWithKey(x, s[1..], key, k);
      var r := [s[0]] + InsertDesc(x, s[1..], key);
      assert r[1..] == InsertDesc(x, s[1..], key);
    }
  }

  /** Stable insertion sort into non-increasing key order. */
  function SortDesc<T>(s: seq<T>, key: T -> int): (r: seq<T>)
    ensures |r| == |s|
  {
    if s == [] then [] else InsertDesc(s[0], SortDesc(s[1..], key), key)
  }

  /** The sort is a permutation of its input. */
  lemma {:induction false} SortDescPermutation<T>(s: seq<T>, key: T -> int)
    ensures multiset(SortDesc(s, key)) == multiset(s)
  {
    if s != [] {
      SortDescPermutation(s[1..], key);
      InsertDescMultiset(s[0], SortDesc(s[1..], key), key);
      assert s == [s[0]] + s[1..];
    }
  }

  /** The sort's keys do not increase along the result. */
  lemma {:induction false} SortDescSorted<T>(s: seq<T>, key: T -> int)
    ensures NonIncreasing(SortDesc(s, key), key)
  {
    if s != [] {
      SortDescSorted(s[1..], key);
      InsertDescSorted(s[0], SortDesc(s[1..], key), key);
    }
  }

  /** Stability: the elements sharing any one key keep their input order. */
  lemma {:induction false} SortDescStable<T>(s: seq<T>, key: T -> int, k: int)
    ensures WithKey(SortDesc(s, key), key, k) == WithKey(s, key, k)
  {
    if s != [] {
      SortDescStable(s[1..], key, k);
      InsertDescWithKey(s[0], SortDesc(s[1..], key), key, k);
    }
  }

  lemma {:induction false} InsertDescImage<T, U>(x: T, s: seq<T>, key: T -> int, f: T -> U)
    ensures multiset(Image(InsertDesc(x, s, key), f)) == multiset(Image(s, f)) + multiset{f(x)}
  {
    if s == [] || key(s[0]) <= key(x) {
      assert InsertDesc(x, s, key) == [x] + s;
      assert Image([x] + s, f) == [f(x)] + Image(s, f);
    } else {
      InsertDescImage(x, s[1..], key, f);
      var tail := InsertDesc(x, s[1..], key);
      assert InsertDesc(x, s, key) == [s[0]] + tail;
      assert Image([s[0]] + tail, f) == [f(s[0])] + Image(tail, f);
      assert Image(s, f) == [f(s[0])] + Image(s[1..], f);
    }
  }

  /** Sorting moves elements but keeps every projection of them: e.g. the
      ward names of a ranking are the ward names it was built from. */
  lemma {:induction false} SortDescImage<T, U>(s: seq<T>, key: T -> int, f: T -> U)
    ensures multiset(Image(SortDesc(s, key), f)) == multiset(Image(s, f))
  {
    if s != [] {
      SortDescImage(s[1..], key, f);
      InsertDescImage(s[0], SortDesc(s[1..], key), key, f);
      assert Image(s, f) == [f(s[0])] + Image(s[1..], f);
    }
  }

  /** Two sequences that agree, position by position, on the key and on a
      projection `f` have the same projected subsequence for every key. */
  lemma {:induction false} WithKeyImage<T, U>(a: seq<T>, b: seq<T>, key: T -> int, f: T -> U, k: int)
    requires |a| == |b|
    requires forall i :: 0 <= i < |a| ==> key(a[i]) == key(b[i]) && f(a[i]) == f(b[i])
    ensures Image(WithKey(a, key, k), f) == Image(WithKey(b, key, k), f)
  {
    if a != [] {
      WithKeyImage(a[1..], b[1..], key, f, k);
      if key(a[0]) == k {
        assert Image([a[0]] + WithKey(a[1..], key, k), f) == [f(a[0])] + Image(WithKey(a[1..], key, k), f);
        assert Image([b[0]] + WithKey(b[1..], key, k), f) == [f(b[0])] + Image(WithKey(b[1..], key, k), f);
      }
    }
  }

  /** Every element of the sort comes from the input. */
  lemma SortDescMember<T>(s: seq<T>, key: T -> int, x: T)
    requires x in SortDesc(s, key)
    ensures x in s
  {
    SortDescPermutation(s, key);
    assert x in multiset(SortDesc(s, key));
  }

  /** The first element of a non-empty sorted sequence has the largest key. */
  lemma FirstIsLargest<T>(s: seq<T>, key: T -> int)
    requires NonIncreasing(s, key) && s != []
    ensures forall x :: x in s ==> key(x) <= key(s[0])
  {
  }
}
