/** The pagination arithmetic shared by the dashboard panels and the tables: the page count, the start
    index, the page slice and the "Showing a to b of n" range. */
module Paging {
  /** `Math.ceil(n / k)` for a positive page size: the fewest pages of `k` that hold `n` items. */
  function TotalPages(n: nat, k: nat): (t: nat)
    requires k > 0
    ensures n <= t * k
    ensures t > 0 ==> (t - 1) * k < n
    ensures t == 0 <==> n == 0
  {
    var t := (n + k - 1) / k;
    var r := (n + k - 1) % k;
    assert n + k - 1 == t * k + r && 0 <= r < k;
    assert (t - 1) * k == t * k - k;
    t
  }

  /** There is more than one page exactly when the items do not fit on one. */
  lemma MoreThanOnePage(n: nat, k: nat)
    requires k > 0
    ensures TotalPages(n, k) > 1 <==> n > k
  {
    var t := TotalPages(n, k);
    if t > 1 {
      assert (t - 1) * k >= 1 * k;
    } else {
      assert t * k <= 1 * k;
    }
  }

  /** `(currentPage - 1) * itemsPerPage`. */
  function StartIndex(page: int, k: nat): (r: int)
    ensures page >= 1 ==> r >= 0
  {
    assert page >= 1 ==> (page - 1) * k >= 0 * k;
    (page - 1) * k
  }

  /** Where `Array.prototype.slice` takes an index to: a negative index counts back from the end, and the
      result is clamped to the list. */
  function SliceIndex(i: int, n: nat): (r: nat)
    ensures r <= n
    ensures 0 <= i ==> r == if i < n then i else n
    ensures i < 0 ==> r == if n + i < 0 then 0 else n + i
  {
    if i < 0 then (if n + i < 0 then 0 else n + i)
    else if i > n then n
    else i
  }

  /** `s.slice(start, end)`: the items from the clamped start up to the clamped end, or none when the end
      comes first. */
  function Slice<T>(s: seq<T>, start: int, end: int): (r: seq<T>)
    ensures |r| <= |s|
    ensures SliceIndex(start, |s|) <= SliceIndex(end, |s|) ==> r == s[SliceIndex(start, |s|)..SliceIndex(end, |s|)]
    ensures SliceIndex(end, |s|) < SliceIndex(start, |s|) ==> r == []
  {
    var a := SliceIndex(start, |s|);
    var b := SliceIndex(end, |s|);
    if a <= b then s[a..b] else []
  }

  /** The items page `page` shows: `s.slice(startIndex, startIndex + k)`. */
  function Page<T>(s: seq<T>, page: int, k: nat): seq<T> {
    Slice(s, StartIndex(page, k), StartIndex(page, k) + k)
  }

  /** Page `page` (from 1) is the contiguous run of at most `k` items starting at its start index, cut off at
      the end of the list. */
  lemma PageIsSegment<T>(s: seq<T>, page: int, k: nat)
    requires page >= 1
    ensures var a := if StartIndex(page, k) < |s| then StartIndex(page, k) else |s|;
            var b := if StartIndex(page, k) + k < |s| then StartIndex(page, k) + k else |s|;
            0 <= a <= b <= |s| && Page(s, page, k) == s[a..b]
    ensures |Page(s, page, k)| <= k
  {
    WindowIsSegment(s, StartIndex(page, k), k);
  }

  /** A window of `k` items starting at a non-negative index, cut off at the end of the list. */
  lemma WindowIsSegment<T>(s: seq<T>, start: int, k: nat)
    requires start >= 0
    ensures var a := if start < |s| then start else |s|;
            var b := if start + k < |s| then start + k else |s|;
            0 <= a <= b <= |s| && Slice(s, start, start + k) == s[a..b]
    ensures |Slice(s, start, start + k)| <= k
  {
  }

  /** A page past the last one is empty. */
  lemma PageBeyondLast<T>(s: seq<T>, page: int, k: nat)
    requires k > 0 && page > TotalPages(|s|, k)
    ensures Page(s, page, k) == []
  {
    var t := TotalPages(|s|, k);
    assert StartIndex(page, k) >= t * k by {
      assert page - 1 >= t;
      assert (page - 1) * k >= t * k;
    }
    PageIsSegment(s, page, k);
  }

  /** Every page from the first to the last holds at least one item. */
  lemma PageInRangeNonEmpty<T>(s: seq<T>, page: int, k: nat)
    requires k > 0 && 1 <= page <= TotalPages(|s|, k)
    ensures |Page(s, page, k)| > 0
  {
    var t := TotalPages(|s|, k);
    assert StartIndex(page, k) < |s| by {
      assert page - 1 <= t - 1;
      assert (page - 1) * k <= (t - 1) * k;
    }
    PageIsSegment(s, page, k);
  }

  /** Pages 1 to `m` laid end to end. */
  function PagesUpTo<T>(s: seq<T>, k: nat, m: nat): seq<T> {
    if m == 0 then [] else PagesUpTo(s, k, m - 1) + Page(s, m, k)
  }

  /** The first `m` pages are the first `m * k` items (or all of them). */
  lemma {:induction false} PagesUpToPrefix<T>(s: seq<T>, k: nat, m: nat)
    ensures PagesUpTo(s, k, m) == s[..if m * k < |s| then m * k else |s|]
  {
    if m > 0 {
      PagesUpToPrefix(s, k, m - 1);
      PageIsSegment(s, m, k);
      assert StartIndex(m, k) == (m - 1) * k == m * k - k;
      var a := if (m - 1) * k < |s| then (m - 1) * k else |s|;
      var b := if m * k < |s| then m * k else |s|;
      assert s[..a] + s[a..b] == s[..b];
    }
  }

  /** Laying pages 1 to `TotalPages` end to end gives back the whole list, in order. */
  lemma PagesPartition<T>(s: seq<T>, k: nat)
    requires k > 0
    ensures PagesUpTo(s, k, TotalPages(|s|, k)) == s
  {
    PagesUpToPrefix(s, k, TotalPages(|s|, k));
  }

  /** The "Showing a to b of n" numbers for a start index, a page size and a total. */
  datatype Range = Range(from: int, to: int, total: int)

  /** `startIndex + 1` and `Math.min(startIndex + k, n)`; the upper end never exceeds the total. */
  function ShowingRange(startIndex: int, k: nat, n: nat): (r: Range)
    ensures r.to <= n && r.total == n
    ensures r.from == startIndex + 1
    ensures r.to <= startIndex + k && (r.to == startIndex + k || r.to == n)
  {
    Range(startIndex + 1, if startIndex + k < n then startIndex + k else n, n)
  }

  /** On a page from the first to the last, the range names exactly the items the page shows: it starts
      after the items of the earlier pages and spans the page's length. */
  lemma RangeDescribesPage<T>(s: seq<T>, page: int, k: nat)
    requires k > 0 && 1 <= page <= TotalPages(|s|, k)
    ensures var r := ShowingRange(StartIndex(page, k), k, |s|);
            1 <= r.from <= r.to && r.to - r.from + 1 == |Page(s, page, k)|
            && Page(s, page, k) == s[r.from - 1..r.to]
  {
    PageInRangeNonEmpty(s, page, k);
    PageIsSegment(s, page, k);
  }

  /** On a page past the last one the range still ends at the total, so it starts after it ends: the text
      would read "Showing a to b" with a > b. */
  lemma RangeBeyondLast(page: int, k: nat, n: nat)
    requires k > 0 && page > TotalPages(n, k)
    ensures var r := ShowingRange(StartIndex(page, k), k, n);
            r.to == n && r.from > r.to
  {
    var t := TotalPages(n, k);
    assert StartIndex(page, k) >= t * k by {
      assert page - 1 >= t;
      assert (page - 1) * k >= t * k;
    }
  }
}
