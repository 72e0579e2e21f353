/**
 * The few `Array.prototype` operations the modelled code relies on:
 * `indexOf`, `filter`, `find` and `splice(i, 1)`.
 */
module JsArray {
  import opened Wrappers

  /** `indexOf`: the first index holding `x`, or -1. */
  function IndexOf<T(==)>(s: seq<T>, x: T): (r: int)
    ensures -1 <= r < |s|
    ensures r == -1 <==> x !in s
    ensures 0 <= r ==> s[r] == x && x !in s[..r]
  {
    if s == [] then -1
    else if s[0] == x then 0
    else
      var k := IndexOf(s[1..], x);
      if k == -1 then -1 else k + 1
  }

  /** An index holding `x` with no earlier `x` is the one `indexOf` finds. */
  lemma IndexOfFirst<T>(s: seq<T>, x: T, i: nat)
    requires i < |s| && s[i] == x && x !in s[..i]
    ensures IndexOf(s, x) == i
  {
  }

  /** `filter`: the elements satisfying `p`, in their original order. */
  function Filter<T>(s: seq<T>, p: T -> bool): (r: seq<T>)
    ensures |r| <= |s|
    ensures forall i :: 0 <= i < |r| ==> r[i] in s && p(r[i])
    ensures forall i :: 0 <= i < |s| && p(s[i]) ==> s[i] in r
  {
    if s == [] then []
    else (if p(s[0]) then [s[0]] else []) + Filter(s[1..], p)
  }

  /** `find`: the first element satisfying `p`, if any. */
  function Find<T>(s: seq<T>, p: T -> bool): (r: Option<T>)
    ensures r.None? <==> forall i :: 0 <= i < |s| ==> !p(s[i])
    ensures r.Some? ==> exists i :: 0 <= i < |s| && s[i] == r.value && p(s[i]) && forall j :: 0 <= j < i ==> !p(s[j])
  {
    if s == [] then None
    else if p(s[0]) then Some(s[0])
    else
      Find(s[1..], p)
  }

  /** `splice(i, 1)`: drop the element at index `i`. */
  function RemoveAt<T>(s: seq<T>, i: nat): (r: seq<T>)
    requires i < |s|
    ensures |r| == |s| - 1
    ensures forall j :: 0 <= j < i ==> r[j] == s[j]
    ensures forall j :: i <= j < |r| ==> r[j] == s[j + 1]
  {
    s[..i] + s[i + 1..]
  }

  /** Filtering distributes over concatenation: the result keeps the input's order. */
  lemma {:induction false} FilterAppend<T>(a: seq<T>, b: seq<T>, p: T -> bool)
    ensures Filter(a + b, p) == Filter(a, p) + Filter(b, p)
  {
    if a == [] {
      assert a + b == b;
    } else {
      assert (a + b)[1..] == a[1..] + b;
      FilterAppend(a[1..], b, p);
    }
  }

  /** Filtering twice by `q` and then `p`, where `p` implies `q`, is filtering by `p`. */
  lemma {:induction false} FilterNarrows<T>(s: seq<T>, p: T -> bool, q: T -> bool)
    requires forall x :: p(x) ==> q(x)
    ensures Filter(Filter(s, q), p) == Filter(s, p)
  {
    if s != [] {
      FilterNarrows(s[1..], p, q);
      FilterAppend(if q(s[0]) then [s[0]] else [], Filter(s[1..], q), p);
    }
  }

  /** A filter keeps everything exactly when every element passes. */
  lemma {:induction false} FilterAll<T>(s: seq<T>, p: T -> bool)
    requires forall i :: 0 <= i < |s| ==> p(s[i])
    ensures Filter(s, p) == s
  {
    if s != [] {
      FilterAll(s[1..], p);
    }
  }

  lemma {:induction false} FilterNone<T>(s: seq<T>, p: T -> bool)
    requires forall i :: 0 <= i < |s| ==> !p(s[i])
    ensures Filter(s, p) == []
  {
    if s != [] {
      FilterNone(s[1..], p);
    }
  }

  /** Elements pass exactly at the indices `x..y`: the filter is that slice. */
  lemma FilterSlice<T>(s: seq<T>, p: T -> bool, x: nat, y: nat)
    requires x <= y <= |s|
    requires forall i :: 0 <= i < |s| ==> (p(s[i]) <==> x <= i < y)
    ensures Filter(s, p) == s[x..y]
  {
    SliceParts(s, p, x, y);
    FilterMiddle(s[..x], s[x..y], s[y..], p);
  }

  lemma SliceParts<T>(s: seq<T>, p: T -> bool, x: nat, y: nat)
    requires x <= y <= |s|
    requires forall i :: 0 <= i < |s| ==> (p(s[i]) <==> x <= i < y)
    ensures forall i :: 0 <= i < |s[..x]| ==> !p(s[..x][i])
    ensures forall i :: 0 <= i < |s[x..y]| ==> p(s[x..y][i])
    ensures forall i :: 0 <= i < |s[y..]| ==> !p(s[y..][i])
    ensures s == s[..x] + (s[x..y] + s[y..])
  {
    forall i | 0 <= i < x ensures !p(s[..x][i]) { assert s[..x][i] == s[i]; }
    forall i | 0 <= i < y - x ensures p(s[x..y][i]) { assert s[x..y][i] == s[x + i]; }
    forall i | 0 <= i < |s| - y ensures !p(s[y..][i]) { assert s[y..][i] == s[y + i]; }
  }

  /** Only the middle part passes: the filter is the middle part. */
  lemma FilterMiddle<T>(a: seq<T>, b: seq<T>, c: seq<T>, p: T -> bool)
    requires forall i :: 0 <= i < |a| ==> !p(a[i])
    requires forall i :: 0 <= i < |b| ==> p(b[i])
    requires forall i :: 0 <= i < |c| ==> !p(c[i])
    ensures Filter(a + (b + c), p) == b
  {
    FilterNone(a, p);
    FilterAll(b, p);
    FilterNone(c, p);
    FilterAppend(b, c, p);
    FilterAppend(a, b + c, p);
    assert [] + (b + []) == b;
  }
}
