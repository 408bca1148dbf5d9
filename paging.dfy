/**
 * Fixed-size pages over a list: the server's product listing (4 per page,
 * skip and limit) and the admin tables (8 rows per page, `slice`).
 */
module Paging {
  import Lists

  function Min(a: int, b: int): int {
    if a <= b then a else b
  }

  /** `Math.ceil(n / size)`: the fewest pages of `size` that hold `n` entries. */
  function CeilDiv(n: nat, size: nat): (r: nat)
    requires size > 0
    ensures n <= r * size
    ensures r > 0 ==> (r - 1) * size < n
    ensures n == 0 <==> r == 0
  {
    var r := (n + size - 1) / size;
    assert r * size <= n + size - 1 < (r + 1) * size;
    r
  }

  /**
   * Page `page` (counted from 1): skip `(page - 1) * size` entries and take
   * up to `size`. A skip below zero is taken as zero.
   */
  function Page<T>(s: seq<T>, page: int, size: nat): (r: seq<T>)
    requires size > 0
    ensures |r| <= size
  {
    var start := if page < 1 then 0 else Min((page - 1) * size, |s|);
    s[start..Min(start + size, |s|)]
  }

  /** Pages `1..page` put back together: the first `page * size` entries. */
  function PagesUpTo<T>(s: seq<T>, page: nat, size: nat): seq<T>
    requires size > 0
  {
    if page == 0 then [] else PagesUpTo(s, page - 1, size) + Page(s, page, size)
  }

  lemma {:induction false} PagesUpToPrefix<T>(s: seq<T>, page: nat, size: nat)
    requires size > 0
    ensures PagesUpTo(s, page, size) == s[..Min(page * size, |s|)]
  {
    if page > 0 {
      PagesUpToPrefix(s, page - 1, size);
      assert (page - 1) * size + size == page * size;
    }
  }

  /** Multiplying by a non-negative factor keeps the order. */
  lemma MulMonotonic(a: int, b: int, c: nat)
    requires a <= b
    ensures a * c <= b * c
  {
    assert b * c - a * c == (b - a) * c;
  }

  /**
   * The pages `1..CeilDiv(|s|, size)` together are exactly `s`: every entry
   * is on one page, in order, and no page past the last holds anything.
   */
  lemma PagesPartition<T>(s: seq<T>, size: nat)
    requires size > 0
    ensures PagesUpTo(s, CeilDiv(|s|, size), size) == s
    ensures forall p :: p > CeilDiv(|s|, size) ==> Page(s, p, size) == []
  {
    var t := CeilDiv(|s|, size);
    PagesUpToPrefix(s, t, size);
    assert Min(t * size, |s|) == |s|;
    assert s[..|s|] == s;
    forall p | p > t ensures Page(s, p, size) == [] {
      MulMonotonic(t, p - 1, size);
    }
  }

  /** A page in range holds between 1 and `size` entries. */
  lemma PageInRange<T>(s: seq<T>, page: int, size: nat)
    requires size > 0 && 1 <= page <= CeilDiv(|s|, size)
    ensures 1 <= |Page(s, page, size)| <= size
    ensures Page(s, page, size) == s[(page - 1) * size..Min(page * size, |s|)]
  {
    var t := CeilDiv(|s|, size);
    MulMonotonic(page - 1, t - 1, size);
    MulMonotonic(0, page - 1, size);
    assert (page - 1) * size + size == page * size;
  }

  /**
   * `s.slice((page - 1) * size, page * size)` is the same page whenever
   * `page >= 1`.
   */
  lemma SliceIsPage<T>(s: seq<T>, page: int, size: nat)
    requires size > 0 && page >= 1
    ensures Lists.JsSlice(s, (page - 1) * size, page * size) == Page(s, page, size)
  {
    assert (page - 1) * size >= 0;
    assert (page - 1) * size + size == page * size;
  }
}
