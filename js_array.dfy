/**
 * The few `Array.prototype` operations the purchase screens use, as pure
 * functions on sequences: `filter`, `findIndex`, `find` and the summing
 * `reduce((sum, x) => sum + f(x), 0)`.
 */
module JsArray {
  import opened Wrappers

  /** `s.filter(keep)`: the elements of `s` that satisfy `keep`, in their order. */
  function Filter<T>(s: seq<T>, keep: T -> bool): seq<T> {
    if s == [] then [] else (if keep(s[0]) then [s[0]] else []) + Filter(s[1..], keep)
  }

  /** Filtering a concatenation filters each part: order is kept. */
  lemma {:induction false} FilterAppend<T>(a: seq<T>, b: seq<T>, keep: T -> bool)
    ensures Filter(a + b, keep) == Filter(a, keep) + Filter(b, keep)
  {
    if a == [] {
      assert a + b == b;
    } else {
      var head := if keep(a[0]) then [a[0]] else [];
      assert (a + b)[0] == a[0];
      assert (a + b)[1..] == a[1..] + b;
      FilterAppend(a[1..], b, keep);
      calc {
        Filter(a + b, keep);
        head + Filter(a[1..] + b, keep);
        head + (Filter(a[1..], keep) + Filter(b, keep));
        (head + Filter(a[1..], keep)) + Filter(b, keep);
      }
    }
  }

  /** An element survives the filter exactly when it was there and `keep` holds of it. */
  lemma {:induction false} FilterMembers<T>(s: seq<T>, keep: T -> bool)
    ensures forall x :: x in Filter(s, keep) <==> x in s && keep(x)
  {
    if s != [] {
      FilterMembers(s[1..], keep);
      assert s == [s[0]] + s[1..];
    }
  }

  /** When every element is kept the filter returns its input. */
  lemma {:induction false} FilterKeepsAll<T>(s: seq<T>, keep: T -> bool)
    requires forall i | 0 <= i < |s| :: keep(s[i])
    ensures Filter(s, keep) == s
  {
    if s != [] {
      FilterKeepsAll(s[1..], keep);
    }
  }

  /** `s.findIndex(pred)`: the first index whose element satisfies `pred`, or -1. */
  function FindIndex<T>(s: seq<T>, pred: T -> bool): (r: int)
    ensures -1 <= r < |s|
    ensures r == -1 <==> forall i | 0 <= i < |s| :: !pred(s[i])
    ensures r >= 0 ==> pred(s[r]) && forall k | 0 <= k < r :: !pred(s[k])
  {
    if s == [] then -1
    else if pred(s[0]) then 0
    else
      var r := FindIndex(s[1..], pred);
      if r == -1 then -1 else r + 1
  }

  /** `s.find(pred)`: the first element satisfying `pred`, or `undefined`. */
  function Find<T>(s: seq<T>, pred: T -> bool): (r: Option<T>)
    ensures r.None? <==> forall i | 0 <= i < |s| :: !pred(s[i])
    ensures r.Some? ==> exists i | 0 <= i < |s| :: s[i] == r.value && pred(s[i]) && forall k | 0 <= k < i :: !pred(s[k])
  {
    var i := FindIndex(s, pred);
    if i == -1 then None else Some(s[i])
  }

  /** `s.reduce((sum, x) => sum + amount(x), 0)`: a left fold from 0. */
  function SumOf<T>(s: seq<T>, amount: T -> int): int {
    if s == [] then 0 else SumOf(s[..|s| - 1], amount) + amount(s[|s| - 1])
  }

  /** The sum of a concatenation is the sum of its parts. */
  lemma {:induction false} SumOfAppend<T>(a: seq<T>, b: seq<T>, amount: T -> int)
    ensures SumOf(a + b, amount) == SumOf(a, amount) + SumOf(b, amount)
  {
    if b != [] {
      assert (a + b)[..|a + b| - 1] == a + b[..|b| - 1];
      SumOfAppend(a, b[..|b| - 1], amount);
    } else {
      assert a + b == a;
    }
  }

  /** Replacing one element changes the sum by the difference of the two amounts. */
  lemma SumOfUpdate<T>(s: seq<T>, k: nat, x: T, amount: T -> int)
    requires k < |s|
    ensures SumOf(s[k := x], amount) == SumOf(s, amount) - amount(s[k]) + amount(x)
  {
    assert s == s[..k] + [s[k]] + s[k + 1..];
    assert s[k := x] == s[..k] + [x] + s[k + 1..];
    SumOfAppend(s[..k] + [s[k]], s[k + 1..], amount);
    SumOfAppend(s[..k] + [x], s[k + 1..], amount);
    SumOfAppend(s[..k], [s[k]], amount);
    SumOfAppend(s[..k], [x], amount);
    assert SumOf([x], amount) == amount(x) by { assert [x][..0] == []; }
    assert SumOf([s[k]], amount) == amount(s[k]) by { assert [s[k]][..0] == []; }
  }
}
