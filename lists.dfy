/**
 * Array operations of JavaScript that the handlers and reducers use:
 * `filter`, `findIndex`, replacing the found element, `slice` with its
 * clipping rules, and the insertion order of a `Set`.
 */
module Lists {

  /** `s.filter(p)`: the elements satisfying `p`, in their original order. */
  function Filter<T(!new)>(s: seq<T>, p: T -> bool): (r: seq<T>)
    ensures |r| <= |s|
    ensures forall x :: x in r <==> x in s && p(x)
  {
    if |s| == 0 then []
    else (if p(s[0]) then [s[0]] else []) + Filter(s[1..], p)
  }

  /** Filtering is a homomorphism of concatenation: it keeps order. */
  lemma {:induction false} FilterAppend<T(!new)>(a: seq<T>, b: seq<T>, p: T -> bool)
    ensures Filter(a + b, p) == Filter(a, p) + Filter(b, p)
  {
    if |a| == 0 {
      assert a + b == b;
    } else {
      assert (a + b)[1..] == a[1..] + b;
      FilterAppend(a[1..], b, p);
    }
  }

  /** A filter that every element passes changes nothing. */
  lemma {:induction false} FilterAll<T(!new)>(s: seq<T>, p: T -> bool)
    requires forall i :: 0 <= i < |s| ==> p(s[i])
    ensures Filter(s, p) == s
  {
    if |s| > 0 {
      FilterAll(s[1..], p);
    }
  }

  /** `s.filter(x => key(x) !== k)`: drop every element whose key is `k`. */
  function Without<T(!new)>(s: seq<T>, key: T -> string, k: string): (r: seq<T>)
    ensures forall x :: x in r <==> x in s && key(x) != k
  {
    Filter(s, x => key(x) != k)
  }

  /** Removing an absent key is a no-op; otherwise the list strictly shrinks. */
  lemma WithoutAbsent<T(!new)>(s: seq<T>, key: T -> string, k: string)
    requires forall i :: 0 <= i < |s| ==> key(s[i]) != k
    ensures Without(s, key, k) == s
  {
    FilterAll(s, x => key(x) != k);
  }

  /** Removing a key that some element has shortens the list. */
  lemma WithoutPresent<T(!new)>(s: seq<T>, key: T -> string, k: string, i: nat)
    requires i < |s| && key(s[i]) == k
    ensures |Without(s, key, k)| < |s|
  {
    FilterDrops(s, x => key(x) != k, i);
  }

  /** A filter that some element fails shortens the list. */
  lemma {:induction false} FilterDrops<T(!new)>(s: seq<T>, p: T -> bool, i: nat)
    requires i < |s| && !p(s[i])
    ensures |Filter(s, p)| < |s|
  {
    if i > 0 {
      assert s[1..][i - 1] == s[i];
      FilterDrops(s[1..], p, i - 1);
    }
  }

  /** `Without` keeps the relative order of the survivors. */
  lemma WithoutAppend<T(!new)>(a: seq<T>, b: seq<T>, key: T -> string, k: string)
    ensures Without(a + b, key, k) == Without(a, key, k) + Without(b, key, k)
  {
    FilterAppend(a, b, x => key(x) != k);
  }

  /** `s.findIndex(x => key(x) === k)`: the first index with key `k`, or -1. */
  function FindIndex<T>(s: seq<T>, key: T -> string, k: string): (r: int)
    ensures -1 <= r < |s|
    ensures r == -1 <==> forall i :: 0 <= i < |s| ==> key(s[i]) != k
    ensures 0 <= r ==> key(s[r]) == k && forall i :: 0 <= i < r ==> key(s[i]) != k
  {
    if |s| == 0 then -1
    else if key(s[0]) == k then 0
    else
      var r := FindIndex(s[1..], key, k);
      if r == -1 then -1 else r + 1
  }

  /**
   * `const idx = s.findIndex(x => x._id === v._id); if (idx !== -1) s[idx] = v`:
   * the first element with the key of `v` is replaced by `v`.
   */
  function ReplaceFirst<T>(s: seq<T>, key: T -> string, v: T): (r: seq<T>)
    ensures |r| == |s|
    ensures var idx := FindIndex(s, key, key(v));
      forall i :: 0 <= i < |s| ==> r[i] == (if i == idx then v else s[i])
  {
    var idx := FindIndex(s, key, key(v));
    if idx == -1 then s else s[idx := v]
  }

  /**
   * Replacing keeps every key where it was, so it keeps keys unique; an
   * absent key changes nothing, a present one puts `v` in the list.
   */
  lemma ReplaceFirstKeys<T>(s: seq<T>, key: T -> string, v: T)
    ensures var r := ReplaceFirst(s, key, v);
      (forall i :: 0 <= i < |s| ==> key(r[i]) == key(s[i])) &&
      (UniqueKeys(s, key) ==> UniqueKeys(r, key)) &&
      (FindIndex(s, key, key(v)) == -1 ==> r == s) &&
      (FindIndex(s, key, key(v)) != -1 ==> v in r)
  {
    var r := ReplaceFirst(s, key, v);
    var idx := FindIndex(s, key, key(v));
    if idx != -1 {
      assert r[idx] == v;
    }
  }

  /** Keys that occur at most once. */
  ghost predicate UniqueKeys<T>(s: seq<T>, key: T -> string) {
    forall i, j :: 0 <= i < j < |s| ==> key(s[i]) != key(s[j])
  }

  /** Filtering cannot create a duplicate key. */
  lemma {:induction false} FilterUnique<T(!new)>(s: seq<T>, key: T -> string, p: T -> bool)
    requires UniqueKeys(s, key)
    ensures UniqueKeys(Filter(s, p), key)
  {
    if |s| > 0 {
      FilterUnique(s[1..], key, p);
      var rest := Filter(s[1..], p);
      forall x | x in rest ensures key(x) != key(s[0]) {
        var j :| 0 <= j < |s[1..]| && s[1..][j] == x;
        assert s[j + 1] == x;
      }
    }
  }

  /** Removing by key cannot create a duplicate key. */
  lemma WithoutUnique<T(!new)>(s: seq<T>, key: T -> string, k: string)
    requires UniqueKeys(s, key)
    ensures UniqueKeys(Without(s, key, k), key)
  {
    FilterUnique(s, key, x => key(x) != k);
  }

  /** An index into a list after JavaScript's `slice` has normalised it. */
  function SliceIndex(i: int, n: nat): (r: nat)
    ensures r <= n
    ensures 0 <= i <= n ==> r == i
    ensures i > n ==> r == n
    ensures i < 0 ==> r == (if n + i < 0 then 0 else n + i)
  {
    if i < 0 then (if n + i < 0 then 0 else n + i)
    else if i > n then n
    else i
  }

  /** `s.slice(start, end)`: negative indices count from the end, both are clipped. */
  function JsSlice<T>(s: seq<T>, start: int, end: int): seq<T> {
    var a := SliceIndex(start, |s|);
    var b := SliceIndex(end, |s|);
    if a < b then s[a..b] else []
  }

  /** `[...new Set(s)]`: each value once, at the place it first appears. */
  function Distinct<T(==,!new)>(s: seq<T>): (r: seq<T>)
    ensures forall x :: x in r <==> x in s
    ensures forall i, j :: 0 <= i < j < |r| ==> r[i] != r[j]
  {
    if |s| == 0 then []
    else
      var d := Distinct(s[..|s| - 1]);
      assert forall x :: x in s <==> x in s[..|s| - 1] || x == s[|s| - 1];
      if s[|s| - 1] in d then d else d + [s[|s| - 1]]
  }

  /** The position of the first occurrence of `x` in `s`. */
  function FirstIndex<T(==)>(s: seq<T>, x: T): (r: nat)
    requires x in s
    ensures r < |s| && s[r] == x && x !in s[..r]
  {
    if s[0] == x then 0 else 1 + FirstIndex(s[1..], x)
  }

  /** A first occurrence in a prefix is the first occurrence in the whole list. */
  lemma FirstIndexPrefix<T>(s: seq<T>, n: nat, x: T)
    requires n <= |s| && x in s[..n]
    ensures FirstIndex(s, x) == FirstIndex(s[..n], x)
  {
    var i := FirstIndex(s[..n], x);
    assert s[..n][..i] == s[..i];
  }

  /** `Distinct` lists the values in the order of their first appearance. */
  lemma {:induction false} DistinctInFirstAppearanceOrder<T(!new)>(s: seq<T>, i: nat, j: nat)
    requires i < j < |Distinct(s)|
    ensures Distinct(s)[i] in s && Distinct(s)[j] in s
    ensures FirstIndex(s, Distinct(s)[i]) < FirstIndex(s, Distinct(s)[j])
  {
    var n := |s| - 1;
    var init := s[..n];
    var d := Distinct(init);
    if s[n] in d {
      assert Distinct(s) == d;
      DistinctInFirstAppearanceOrder(init, i, j);
      FirstIndexPrefix(s, n, d[i]);
      FirstIndexPrefix(s, n, d[j]);
    } else {
      assert Distinct(s) == d + [s[n]];
      if j < |d| {
        DistinctInFirstAppearanceOrder(init, i, j);
        FirstIndexPrefix(s, n, d[i]);
        FirstIndexPrefix(s, n, d[j]);
      } else {
        assert d[i] in init;
        FirstIndexPrefix(s, n, d[i]);
        assert s[n] !in init;
        assert FirstIndex(s, s[n]) == n;
      }
    }
  }
}
