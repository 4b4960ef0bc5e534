/**
 * Python's ordering of strings (by code point, a proper prefix first) and the stable
 * `sorted(..., key=..., reverse=True)` the report listings use.
 */
module Sorting {

  /** `a < b` on Python strings. */
  predicate Less(a: string, b: string)
    decreases |a|
  {
    |b| > 0 && (|a| == 0 || a[0] < b[0] || (a[0] == b[0] && Less(a[1..], b[1..])))
  }

  lemma {:induction false} LessIrreflexive(a: string)
    ensures !Less(a, a)
    decreases |a|
  {
    if |a| > 0 {
      LessIrreflexive(a[1..]);
    }
  }

  lemma {:induction false} LessAsymmetric(a: string, b: string)
    ensures Less(a, b) ==> !Less(b, a)
    decreases |a|
  {
    if |a| > 0 && |b| > 0 && a[0] == b[0] {
      LessAsymmetric(a[1..], b[1..]);
    }
  }

  lemma {:induction false} LessTransitive(a: string, b: string, c: string)
    requires Less(a, b) && Less(b, c)
    ensures Less(a, c)
    decreases |a|
  {
    if |a| > 0 && a[0] == b[0] && b[0] == c[0] {
      LessTransitive(a[1..], b[1..], c[1..]);
    }
  }

  lemma {:induction false} LessTotal(a: string, b: string)
    ensures Less(a, b) || a == b || Less(b, a)
    decreases |a|
  {
    if |a| > 0 && |b| > 0 && a[0] == b[0] {
      LessTotal(a[1..], b[1..]);
      if a[1..] == b[1..] {
        assert a == [a[0]] + a[1..] && b == [b[0]] + b[1..];
      }
    }
  }

  /** Every key is at least the next one. */
  predicate SortedDescBy<T>(xs: seq<T>, key: T -> string)
  {
    forall i, j :: 0 <= i < j < |xs| ==> !Less(key(xs[i]), key(xs[j]))
  }

  /** Places `x` after every element whose key is at least its own. */
  function InsertDescBy<T>(x: T, xs: seq<T>, key: T -> string): (r: seq<T>)
    ensures |r| == |xs| + 1
    ensures multiset(r) == multiset(xs) + multiset{x}
  {
    if xs == [] then [x]
    else if Less(key(xs[0]), key(x)) then [x] + xs
    else
      assert xs == [xs[0]] + xs[1..];
      [xs[0]] + InsertDescBy(x, xs[1..], key)
  }

  lemma {:induction false} InsertKeepsSorted<T>(x: T, xs: seq<T>, key: T -> string)
    requires SortedDescBy(xs, key)
    ensures SortedDescBy(InsertDescBy(x, xs, key), key)
    decreases |xs|
  {
    var r := InsertDescBy(x, xs, key);
    if xs == [] {
    } else if Less(key(xs[0]), key(x)) {
      forall j | 0 < j < |r|
        ensures !Less(key(x), key(r[j]))
      {
        if j > 1 {
          LessTotal(key(xs[0]), key(r[j]));
          assert r[j] == xs[j - 1];
          if key(xs[0]) == key(r[j]) {
            LessAsymmetric(key(r[j]), key(x));
          } else if Less(key(r[j]), key(xs[0])) {
            LessTransitive(key(r[j]), key(xs[0]), key(x));
            LessAsymmetric(key(r[j]), key(x));
          }
        } else {
          LessAsymmetric(key(xs[0]), key(x));
        }
      }
    } else {
      InsertKeepsSorted(x, xs[1..], key);
      var rest := InsertDescBy(x, xs[1..], key);
      forall j | 0 < j < |r|
        ensures !Less(key(xs[0]), key(r[j]))
      {
        assert r[j] == rest[j - 1];
        assert rest[j - 1] in multiset(rest);
        assert rest[j - 1] in multiset(xs[1..]) + multiset{x};
        if rest[j - 1] != x {
          assert rest[j - 1] in xs[1..];
          var k :| 0 <= k < |xs[1..]| && xs[1..][k] == rest[j - 1];
          assert xs[k + 1] == rest[j - 1];
        }
      }
    }
  }

  /** `sorted(xs, key=key, reverse=True)`: each element is inserted after its equals, so the sort is stable. */
  function SortDescBy<T>(xs: seq<T>, key: T -> string): (r: seq<T>)
    ensures multiset(r) == multiset(xs)
    decreases |xs|
  {
    if xs == [] then []
    else
      assert xs == xs[..|xs| - 1] + [xs[|xs| - 1]];
      InsertDescBy(xs[|xs| - 1], SortDescBy(xs[..|xs| - 1], key), key)
  }

  lemma {:induction false} SortDescBySorted<T>(xs: seq<T>, key: T -> string)
    ensures SortedDescBy(SortDescBy(xs, key), key)
    decreases |xs|
  {
    if xs != [] {
      SortDescBySorted(xs[..|xs| - 1], key);
      InsertKeepsSorted(xs[|xs| - 1], SortDescBy(xs[..|xs| - 1], key), key);
    }
  }

  /** The elements whose key is `k`, in their order in `xs`. */
  function WithKey<T>(xs: seq<T>, key: T -> string, k: string): (r: seq<T>)
    ensures |r| <= |xs|
  {
    if xs == [] then []
    else (if key(xs[0]) == k then [xs[0]] else []) + WithKey(xs[1..], key, k)
  }

  /** Concatenation is associative. */
  lemma ConcatAssoc<T>(a: seq<T>, b: seq<T>, c: seq<T>)
    ensures a + (b + c) == (a + b) + c
  {
  }

  /** One step of `WithKey`. */
  lemma WithKeyCons<T>(y: T, ys: seq<T>, key: T -> string, k: string)
    ensures WithKey([y] + ys, key, k) == (if key(y) == k then [y] else []) + WithKey(ys, key, k)
  {
    assert ([y] + ys)[0] == y && ([y] + ys)[1..] == ys;
  }

  lemma {:induction false} WithKeyAppend<T>(a: seq<T>, b: seq<T>, key: T -> string, k: string)
    ensures WithKey(a + b, key, k) == WithKey(a, key, k) + WithKey(b, key, k)
    decreases |a|
  {
    if a == [] {
      assert a + b == b;
    } else {
      WithKeyAppend(a[1..], b, key, k);
      assert a + b == [a[0]] + (a[1..] + b);
      assert a == [a[0]] + a[1..];
      WithKeyCons(a[0], a[1..] + b, key, k);
      WithKeyCons(a[0], a[1..], key, k);
      ConcatAssoc(if key(a[0]) == k then [a[0]] else [], WithKey(a[1..], key, k), WithKey(b, key, k));
    }
  }

  lemma {:induction false} WithKeyNone<T>(xs: seq<T>, key: T -> string, k: string)
    requires forall j :: 0 <= j < |xs| ==> key(xs[j]) != k
    ensures WithKey(xs, key, k) == []
    decreases |xs|
  {
    if xs != [] {
      WithKeyNone(xs[1..], key, k);
    }
  }

  lemma SortedTail<T>(xs: seq<T>, key: T -> string)
    requires xs != [] && SortedDescBy(xs, key)
    ensures SortedDescBy(xs[1..], key)
  {
    forall i, j | 0 <= i < j < |xs| - 1
      ensures !Less(key(xs[1..][i]), key(xs[1..][j]))
    {
      assert xs[1..][i] == xs[i + 1] && xs[1..][j] == xs[j + 1];
    }
  }

  /** No element of a sorted list whose head is below `k` has key `k`. */
  lemma HeadBelowNone<T>(xs: seq<T>, key: T -> string, k: string)
    requires xs != [] && SortedDescBy(xs, key) && Less(key(xs[0]), k)
    ensures WithKey(xs, key, k) == []
  {
    forall j | 0 <= j < |xs|
      ensures key(xs[j]) != k
    {
      if j == 0 {
        LessIrreflexive(k);
      } else {
        assert !Less(key(xs[0]), key(xs[j]));
      }
    }
    WithKeyNone(xs, key, k);
  }

  /** `x` goes in front of a sorted list whose head is below it; nothing there has its key. */
  lemma InsertFrontWithKey<T>(x: T, xs: seq<T>, key: T -> string, k: string)
    requires xs != [] && SortedDescBy(xs, key) && Less(key(xs[0]), key(x))
    ensures WithKey(InsertDescBy(x, xs, key), key, k)
         == WithKey(xs, key, k) + (if key(x) == k then [x] else [])
  {
    assert InsertDescBy(x, xs, key) == [x] + xs;
    WithKeyCons(x, xs, key, k);
    if key(x) == k {
      HeadBelowNone(xs, key, k);
    }
  }

  /** Passing over a head that is not below `x` keeps it in front of the rest. */
  lemma InsertPastWithKey<T>(x: T, xs: seq<T>, key: T -> string, k: string)
    requires xs != [] && !Less(key(xs[0]), key(x))
    requires WithKey(InsertDescBy(x, xs[1..], key), key, k)
          == WithKey(xs[1..], key, k) + (if key(x) == k then [x] else [])
    ensures WithKey(InsertDescBy(x, xs, key), key, k)
         == WithKey(xs, key, k) + (if key(x) == k then [x] else [])
  {
    var h := if key(xs[0]) == k then [xs[0]] else [];
    var t := if key(x) == k then [x] else [];
    var rest := InsertDescBy(x, xs[1..], key);
    var tail := WithKey(xs[1..], key, k);
    assert InsertDescBy(x, xs, key) == [xs[0]] + rest;
    WithKeyCons(xs[0], rest, key, k);
    assert xs == [xs[0]] + xs[1..];
    WithKeyCons(xs[0], xs[1..], key, k);
    ConcatAssoc(h, tail, t);
  }

  /** Inserting into a sorted list puts `x` after every element with its key. */
  lemma {:induction false} InsertWithKey<T>(x: T, xs: seq<T>, key: T -> string, k: string)
    requires SortedDescBy(xs, key)
    ensures WithKey(InsertDescBy(x, xs, key), key, k)
         == WithKey(xs, key, k) + (if key(x) == k then [x] else [])
    decreases |xs|
  {
    if xs == [] {
      assert InsertDescBy(x, xs, key) == [x] + [];
      WithKeyCons(x, [], key, k);
    } else if Less(key(xs[0]), key(x)) {
      InsertFrontWithKey(x, xs, key, k);
    } else {
      SortedTail(xs, key);
      InsertWithKey(x, xs[1..], key, k);
      InsertPastWithKey(x, xs, key, k);
    }
  }

  /** The sort is stable: for every key, the elements with that key keep their order. */
  lemma {:induction false} SortDescByStable<T>(xs: seq<T>, key: T -> string, k: string)
    ensures WithKey(SortDescBy(xs, key), key, k) == WithKey(xs, key, k)
    decreases |xs|
  {
    if xs != [] {
      var init, last := xs[..|xs| - 1], xs[|xs| - 1];
      var sorted := SortDescBy(init, key);
      var tail := if key(last) == k then [last] else [];
      assert xs == init + [last];
      assert [last][1..] == [];
      assert WithKey([last], key, k) == tail + WithKey([last][1..], key, k);
      WithKeyAppend(init, [last], key, k);
      assert SortDescBy(xs, key) == InsertDescBy(last, sorted, key);
      SortDescByStable(init, key, k);
      SortDescBySorted(init, key);
      InsertWithKey(last, sorted, key, k);
    }
  }

  function Id(s: string): string { s }

  /** `sorted(names, reverse=True)` on plain strings. */
  function SortDesc(names: seq<string>): (r: seq<string>)
    ensures multiset(r) == multiset(names)
  {
    SortDescBy(names, Id)
  }

  /** A descending listing of distinct names is strictly descending. */
  lemma DistinctSortedIsStrict(r: seq<string>)
    requires SortedDescBy(r, Id)
    requires forall i, j :: 0 <= i < j < |r| ==> r[i] != r[j]
    ensures forall i, j :: 0 <= i < j < |r| ==> Less(r[j], r[i])
  {
    forall i, j | 0 <= i < j < |r|
      ensures Less(r[j], r[i])
    {
      LessTotal(r[i], r[j]);
    }
  }
}
