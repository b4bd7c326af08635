/** Ordering bill rows by time. `Array.prototype.sort` with a comparator is stable;
    pandas' `sort_values` orders by the key but does not promise an order for ties.
    `SortBy` is a stable insertion sort, the reference both are held to. */
module Sorting {

  /** Ascending by `key`. */
  predicate SortedBy<T>(s: seq<T>, key: T -> int)
  {
    forall i, j :: 0 <= i < j < |s| ==> key(s[i]) <= key(s[j])
  }

  /** The elements of `s` whose key is `k`, in their order in `s`. */
  function WithKey<T>(s: seq<T>, key: T -> int, k: int): seq<T>
  {
    if s == [] then []
    else (if key(s[0]) == k then [s[0]] else []) + WithKey(s[1..], key, k)
  }

  /** `x` placed in front of the first element whose key is not below its own. */
  function InsertBy<T>(x: T, s: seq<T>, key: T -> int): seq<T>
  {
    if s == [] || key(x) <= key(s[0]) then [x] + s
    else [s[0]] + InsertBy(x, s[1..], key)
  }

  /** Insertion sort from the back: every element goes in front of the equal keys
      that followed it in the input, so ties keep their input order. */
  function SortBy<T>(s: seq<T>, key: T -> int): seq<T>
  {
    if s == [] then [] else InsertBy(s[0], SortBy(s[1..], key), key)
  }

  lemma {:induction false} InsertByElements<T>(x: T, s: seq<T>, key: T -> int)
    ensures multiset(InsertBy(x, s, key)) == multiset(s) + multiset{x}
    ensures |InsertBy(x, s, key)| == |s| + 1
  {
    if s != [] && key(x) > key(s[0]) {
      InsertByElements(x, s[1..], key);
      assert s == [s[0]] + s[1..];
    }
  }

  lemma {:induction false} InsertBySorted<T>(x: T, s: seq<T>, key: T -> int)
    requires SortedBy(s, key)
    ensures SortedBy(InsertBy(x, s, key), key)
  {
    if s != [] && key(x) > key(s[0]) {
      var rest := InsertBy(x, s[1..], key);
      InsertBySorted(x, s[1..], key);
      assert rest[0] == x || rest[0] == s[1];
      var r := [s[0]] + rest;
      forall i, j | 0 <= i < j < |r|
        ensures key(r[i]) <= key(r[j])
      {
        if i == 0 {
          assert key(rest[0]) <= key(rest[j - 1]);
        } else {
          assert r[i] == rest[i - 1] && r[j] == rest[j - 1];
        }
      }
    }
  }

  /** Inserting into a sorted sequence adds `x` in front of the elements with its key
      and leaves the elements with any other key as they were. */
  lemma {:induction false} InsertByWithKey<T>(x: T, s: seq<T>, key: T -> int, k: int)
    requires SortedBy(s, key)
    ensures WithKey(InsertBy(x, s, key), key, k) == (if key(x) == k then [x] else []) + WithKey(s, key, k)
  {
    if s == [] || key(x) <= key(s[0]) {
      assert ([x] + s)[1..] == s;
    } else {
      var rest := InsertBy(x, s[1..], key);
      var head := if key(s[0]) == k then [s[0]] else [];
      var mine := if key(x) == k then [x] else [];
      assert SortedBy(s[1..], key) by {
        forall i, j | 0 <= i < j < |s[1..]|
          ensures key(s[1..][i]) <= key(s[1..][j])
        {
          assert s[1..][i] == s[i + 1] && s[1..][j] == s[j + 1];
        }
      }
      InsertByWithKey(x, s[1..], key, k);
      assert ([s[0]] + rest)[0] == s[0] && ([s[0]] + rest)[1..] == rest;
      assert key(x) == k ==> head == [];
      calc {
        WithKey([s[0]] + rest, key, k);
        head + WithKey(rest, key, k);
        head + (mine + WithKey(s[1..], key, k));
        mine + (head + WithKey(s[1..], key, k));
        mine + WithKey(s, key, k);
      }
    }
  }

  lemma {:induction false} SortByElements<T>(s: seq<T>, key: T -> int)
    ensures multiset(SortBy(s, key)) == multiset(s)
    ensures |SortBy(s, key)| == |s|
    ensures SortedBy(SortBy(s, key), key)
  {
    if s != [] {
      SortByElements(s[1..], key);
      InsertByElements(s[0], SortBy(s[1..], key), key);
      InsertBySorted(s[0], SortBy(s[1..], key), key);
      assert s == [s[0]] + s[1..];
    }
  }

  /** The sort is a permutation into ascending order that keeps, for every key, the
      elements with that key in their input order. */
  lemma {:induction false} SortBySpec<T>(s: seq<T>, key: T -> int)
    ensures multiset(SortBy(s, key)) == multiset(s)
    ensures SortedBy(SortBy(s, key), key)
    ensures forall k :: WithKey(SortBy(s, key), key, k) == WithKey(s, key, k)
  {
    SortByElements(s, key);
    forall k
      ensures WithKey(SortBy(s, key), key, k) == WithKey(s, key, k)
    {
      SortByStable(s, key, k);
    }
  }

  lemma {:induction false} SortByStable<T>(s: seq<T>, key: T -> int, k: int)
    ensures WithKey(SortBy(s, key), key, k) == WithKey(s, key, k)
  {
    if s != [] {
      SortByStable(s[1..], key, k);
      SortByElements(s[1..], key);
      InsertByWithKey(s[0], SortBy(s[1..], key), key, k);
    }
  }

  /** Filtering distributes over concatenation. */
  lemma {:induction false} WithKeyAppend<T>(a: seq<T>, b: seq<T>, key: T -> int, k: int)
    ensures WithKey(a + b, key, k) == WithKey(a, key, k) + WithKey(b, key, k)
  {
    if a != [] {
      WithKeyAppend(a[1..], b, key, k);
      assert (a + b)[1..] == a[1..] + b;
    } else {
      assert a + b == b;
    }
  }

  /** Sorting `a + b` stably puts, among equal keys, every element of `a` before every
      element of `b`, each in its own order. */
  lemma SortByConcatTies<T>(a: seq<T>, b: seq<T>, key: T -> int, k: int)
    ensures WithKey(SortBy(a + b, key), key, k) == WithKey(a, key, k) + WithKey(b, key, k)
  {
    SortByStable(a + b, key, k);
    WithKeyAppend(a, b, key, k);
  }

  /** An already sorted sequence is left as it is. */
  lemma {:induction false} SortBySorted<T>(s: seq<T>, key: T -> int)
    requires SortedBy(s, key)
    ensures SortBy(s, key) == s
  {
    if s != [] {
      assert SortedBy(s[1..], key);
      SortBySorted(s[1..], key);
    }
  }

  /** `filter`: the elements satisfying `p`, in order. */
  function Filter<T>(s: seq<T>, p: T -> bool): seq<T>
  {
    if s == [] then []
    else (if p(s[0]) then [s[0]] else []) + Filter(s[1..], p)
  }

  /** `map`: `f` applied to every element, in order. */
  function Map<T, U>(s: seq<T>, f: T -> U): (r: seq<U>)
    ensures |r| == |s|
  {
    if s == [] then [] else [f(s[0])] + Map(s[1..], f)
  }

  lemma {:induction false} FilterElements<T>(s: seq<T>, p: T -> bool)
    ensures forall y :: y in Filter(s, p) <==> y in s && p(y)
  {
    if s != [] {
      FilterElements(s[1..], p);
      assert s == [s[0]] + s[1..];
    }
  }

  /** Filtering never lengthens, and keeps everything exactly when every element passes. */
  lemma {:induction false} FilterLength<T>(s: seq<T>, p: T -> bool)
    ensures |Filter(s, p)| <= |s|
    ensures (forall i :: 0 <= i < |s| ==> p(s[i])) ==> Filter(s, p) == s
  {
    if s != [] {
      FilterLength(s[1..], p);
      assert forall i :: 1 <= i < |s| ==> s[1..][i - 1] == s[i];
      assert s == [s[0]] + s[1..];
    }
  }

  /** Dropping the elements that fail `p` commutes with one insertion step. */
  lemma {:induction false} FilterInsertBy<T>(x: T, t: seq<T>, key: T -> int, p: T -> bool)
    requires SortedBy(t, key)
    ensures Filter(InsertBy(x, t, key), p) == if p(x) then InsertBy(x, Filter(t, p), key) else Filter(t, p)
  {
    if t == [] || key(x) <= key(t[0]) {
      assert ([x] + t)[1..] == t;
      if p(x) && Filter(t, p) != [] {
        FilterHeadKey(t, key, p);
      }
    } else {
      var rest := InsertBy(x, t[1..], key);
      FilterInsertBy(x, t[1..], key, p);
      assert ([t[0]] + rest)[1..] == rest;
      assert t == [t[0]] + t[1..];
      var f := Filter(t[1..], p);
      if p(t[0]) {
        assert Filter(t, p) == [t[0]] + f;
        assert ([t[0]] + f)[1..] == f;
      } else {
        assert Filter(t, p) == f;
      }
    }
  }

  /** The first kept element of a sorted sequence has a key no smaller than its head. */
  lemma {:induction false} FilterHeadKey<T>(t: seq<T>, key: T -> int, p: T -> bool)
    requires SortedBy(t, key) && Filter(t, p) != []
    ensures key(t[0]) <= key(Filter(t, p)[0])
  {
    if !p(t[0]) {
      assert Filter(t, p) == Filter(t[1..], p);
      FilterHeadKey(t[1..], key, p);
    }
  }

  /** Filtering before or after the stable sort gives the same sequence. */
  lemma {:induction false} FilterSortBy<T>(s: seq<T>, key: T -> int, p: T -> bool)
    ensures Filter(SortBy(s, key), p) == SortBy(Filter(s, p), key)
  {
    if s != [] {
      FilterSortBy(s[1..], key, p);
      SortByElements(s[1..], key);
      FilterInsertBy(s[0], SortBy(s[1..], key), key, p);
      var f := Filter(s[1..], p);
      if p(s[0]) {
        assert Filter(s, p) == [s[0]] + f;
        assert ([s[0]] + f)[1..] == f;
      } else {
        assert Filter(s, p) == f;
      }
    }
  }

  /** A map that keeps the key commutes with one insertion step. */
  lemma {:induction false} MapInsertBy<T, U>(x: T, t: seq<T>, key: T -> int, f: T -> U, key2: U -> int)
    requires forall y :: key2(f(y)) == key(y)
    ensures Map(InsertBy(x, t, key), f) == InsertBy(f(x), Map(t, f), key2)
  {
    if t == [] || key(x) <= key(t[0]) {
      assert ([x] + t)[1..] == t;
    } else {
      MapInsertBy(x, t[1..], key, f, key2);
      assert ([t[0]] + InsertBy(x, t[1..], key))[1..] == InsertBy(x, t[1..], key);
    }
  }

  /** Mapping before or after the stable sort gives the same sequence, when the map
      keeps the key. */
  lemma {:induction false} MapSortBy<T, U>(s: seq<T>, key: T -> int, f: T -> U, key2: U -> int)
    requires forall y :: key2(f(y)) == key(y)
    ensures Map(SortBy(s, key), f) == SortBy(Map(s, f), key2)
  {
    if s != [] {
      MapSortBy(s[1..], key, f, key2);
      MapInsertBy(s[0], SortBy(s[1..], key), key, f, key2);
    }
  }

  lemma {:induction false} MapAppend<T, U>(a: seq<T>, b: seq<T>, f: T -> U)
    ensures Map(a + b, f) == Map(a, f) + Map(b, f)
  {
    if a == [] {
      assert a + b == b;
    } else {
      MapAppend(a[1..], b, f);
      assert (a + b)[0] == a[0];
      assert (a + b)[1..] == a[1..] + b;
      calc {
        Map(a + b, f);
        [f(a[0])] + Map(a[1..] + b, f);
        [f(a[0])] + (Map(a[1..], f) + Map(b, f));
        ([f(a[0])] + Map(a[1..], f)) + Map(b, f);
        Map(a, f) + Map(b, f);
      }
    }
  }

  lemma {:induction false} FilterAppend<T>(a: seq<T>, b: seq<T>, p: T -> bool)
    ensures Filter(a + b, p) == Filter(a, p) + Filter(b, p)
  {
    if a == [] {
      assert a + b == b;
    } else {
      var head := if p(a[0]) then [a[0]] else [];
      FilterAppend(a[1..], b, p);
      assert (a + b)[0] == a[0];
      assert (a + b)[1..] == a[1..] + b;
      calc {
        Filter(a + b, p);
        head + Filter(a[1..] + b, p);
        head + (Filter(a[1..], p) + Filter(b, p));
        (head + Filter(a[1..], p)) + Filter(b, p);
        Filter(a, p) + Filter(b, p);
      }
    }
  }
}
