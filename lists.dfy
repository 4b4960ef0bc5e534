/**
 * Python's `list.remove(x)`: deletes the first element equal to `x`, and raises
 * `ValueError` when there is none (callers check membership first).
 */
module Lists {

  /** The position of the first `x` in `xs`. */
  function FirstIndex<T(==)>(xs: seq<T>, x: T): (i: nat)
    requires x in xs
    ensures i < |xs| && xs[i] == x
    ensures forall j :: 0 <= j < i ==> xs[j] != x
  {
    if xs[0] == x then 0 else 1 + FirstIndex(xs[1..], x)
  }

  /** `xs.remove(x)` on a list that holds `x`: the elements before and after it keep their order. */
  function RemoveFirst<T(==)>(xs: seq<T>, x: T): (r: seq<T>)
    requires x in xs
    ensures |r| == |xs| - 1
    ensures forall k :: 0 <= k < |r| ==> r[k] == if k < FirstIndex(xs, x) then xs[k] else xs[k + 1]
  {
    var i := FirstIndex(xs, x);
    xs[..i] + xs[i + 1..]
  }

  /** Removing drops exactly one copy of `x`. */
  lemma RemoveFirstCount<T>(xs: seq<T>, x: T)
    requires x in xs
    ensures multiset(RemoveFirst(xs, x)) == multiset(xs) - multiset{x}
  {
    var i := FirstIndex(xs, x);
    assert xs == xs[..i] + [x] + xs[i + 1..];
  }

  /** Removing from a list without repeats leaves every other element and drops `x` entirely. */
  lemma RemoveFromDistinct<T>(xs: seq<T>, x: T)
    requires x in xs
    requires forall i, j :: 0 <= i < j < |xs| ==> xs[i] != xs[j]
    ensures x !in RemoveFirst(xs, x)
    ensures forall y :: y in RemoveFirst(xs, x) <==> y in xs && y != x
    ensures forall i, j :: 0 <= i < j < |RemoveFirst(xs, x)| ==> RemoveFirst(xs, x)[i] != RemoveFirst(xs, x)[j]
  {
    var i := FirstIndex(xs, x);
    var r := RemoveFirst(xs, x);
    assert forall k :: 0 <= k < |r| ==> r[k] == (if k < i then xs[k] else xs[k + 1]);
    assert xs == xs[..i] + [x] + xs[i + 1..];
    forall y | y in xs && y != x
      ensures y in r
    {
      var k :| 0 <= k < |xs| && xs[k] == y;
      assert r[if k < i then k else k - 1] == y;
    }
  }

  /** Appending `x` to a list without it and removing it again gives the list back. */
  lemma RemoveAppended<T>(xs: seq<T>, x: T)
    requires x !in xs
    ensures RemoveFirst(xs + [x], x) == xs
  {
    var i := FirstIndex(xs + [x], x);
    assert forall j :: 0 <= j < |xs| ==> (xs + [x])[j] == xs[j];
    assert i == |xs|;
    assert (xs + [x])[..i] == xs;
  }
}
