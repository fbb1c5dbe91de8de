/** The cache branch's paging of `/by_genre`
    (my-flask-backend/app.py, lines 188 and 235-240): 20 items a page,
    and a page is a Python slice of the sorted list. */
module Pagination {

  const PerPage: nat := 20

  /** `math.ceil(total_items / per_page)`: the fewest pages that hold
      `n` items. */
  function TotalPages(n: nat): (t: nat)
    ensures t * PerPage >= n
    ensures t == 0 || (t - 1) * PerPage < n
  {
    (n + PerPage - 1) / PerPage
  }

  /** How Python reads a slice bound on a list of length `n`: a bound
      inside the list is a position, a negative one counts back from the
      end, and the result is clipped to `0..n`. */
  function SliceBound(i: int, n: nat): (b: nat)
    ensures b <= n
    ensures 0 <= i <= n ==> b == i
    ensures i < 0 && 0 <= n + i ==> b == n + i
    ensures n + i < 0 ==> b == 0
    ensures n < i ==> b == n
  {
    if i < 0 then (if i + n < 0 then 0 else i + n)
    else if i > n then n
    else i
  }

  /** `s[start:stop]` in Python: the items between the two bounds, in
      order; with both bounds inside the list, ordinary slicing. */
  function Slice<T>(s: seq<T>, start: int, stop: int): (r: seq<T>)
    ensures SliceBound(start, |s|) + |r| <= |s|
    ensures forall x :: x in r ==> x in s
    ensures |r| == if SliceBound(start, |s|) < SliceBound(stop, |s|)
                   then SliceBound(stop, |s|) - SliceBound(start, |s|) else 0
    ensures forall k :: 0 <= k < |r| ==> r[k] == s[SliceBound(start, |s|) + k]
    ensures 0 <= start <= stop <= |s| ==> r == s[start..stop]
  {
    var a, b := SliceBound(start, |s|), SliceBound(stop, |s|);
    if a < b then s[a..b] else []
  }

  function Min(a: nat, b: nat): nat {
    if a <= b then a else b
  }

  /** `genre_df.iloc[start_index:end_index]` for the requested page. It
      holds at most 20 of the items. For a page from 1 on, it is the items
      from `(page-1)*20` up to `page*20`, cut at the end of the list, and
      it is non-empty exactly when the page is within `TotalPages`. */
  function Page<T>(items: seq<T>, page: int): (r: seq<T>)
    ensures |r| <= PerPage
    ensures forall x :: x in r ==> x in items
    ensures page >= 1 ==> r == items[Min((page - 1) * PerPage, |items|)..Min(page * PerPage, |items|)]
    ensures page >= 1 ==> (|r| > 0 <==> page <= TotalPages(|items|))
  {
    var start := (page - 1) * PerPage;
    Slice(items, start, start + PerPage)
  }

  /** Pages 1 to `k`, one after the other. */
  function FirstPages<T>(items: seq<T>, k: nat): seq<T> {
    if k == 0 then [] else FirstPages(items, k - 1) + Page(items, k)
  }

  lemma {:induction false} FirstPagesArePrefix<T>(items: seq<T>, k: nat)
    ensures FirstPages(items, k) == items[..Min(k * PerPage, |items|)]
  {
    if k > 0 {
      FirstPagesArePrefix(items, k - 1);
      var a := Min((k - 1) * PerPage, |items|);
      var b := Min(k * PerPage, |items|);
      assert items[..a] + items[a..b] == items[..b];
    }
  }

  /** The pages from 1 to `TotalPages` together are the whole list, in
      order. */
  lemma PagesCoverList<T>(items: seq<T>)
    ensures FirstPages(items, TotalPages(|items|)) == items
  {
    FirstPagesArePrefix(items, TotalPages(|items|));
  }

  /** Pages below 1 are not rejected: page 0 is empty, but a negative
      page is sliced from the end of the list, so page -1 of 50 items is
      items 10 to 29. */
  lemma PagesBelowOne<T>(items: seq<T>)
    requires |items| == 50
    ensures Page(items, 0) == []
    ensures Page(items, -1) == items[10..30]
  {
  }
}
