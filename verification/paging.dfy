/**
 * Client-side pagination as the list screens do it: `Math.ceil(n / perPage)`
 * pages, `Array.prototype.slice` for the visible page, and Previous/Next
 * buttons that clamp with `Math.max` / `Math.min`.
 */
module Paging {

  /** A rows-per-page setting; every screen offers only positive values. */
  type PageSize = n: int | n > 0 witness 10

  /** The fixed page size of the management tables. */
  const ItemsPerPage: PageSize := 10

  /** `Math.ceil(n / perPage)`. */
  function TotalPages(n: nat, perPage: PageSize): (r: nat)
    ensures r * perPage >= n
    ensures r > 0 ==> (r - 1) * perPage < n
    ensures r == 0 <==> n == 0
  {
    var r := (n + perPage - 1) / perPage;
    DivBounds(n + perPage - 1, perPage);
    r
  }

  lemma DivBounds(m: nat, k: PageSize)
    ensures (m / k) * k <= m < (m / k) * k + k
  {
  }

  /** How JavaScript's `slice` turns an argument into an index of a list of length `len`. */
  function SliceIndex(i: int, len: nat): (r: nat)
    ensures r <= len
    ensures 0 <= i <= len ==> r == i
    ensures i > len ==> r == len
    ensures i < 0 ==> r == (if len + i < 0 then 0 else len + i)
  {
    if i < 0 then (if len + i < 0 then 0 else len + i)
    else if i > len then len
    else i
  }

  /** `s.slice(start, end)`, including its treatment of negative arguments. */
  function JsSlice<T>(s: seq<T>, start: int, end: int): (r: seq<T>)
    ensures |r| <= |s|
    ensures forall x :: x in r ==> x in s
    ensures var a := SliceIndex(start, |s|); var b := SliceIndex(end, |s|);
      if a < b then r == s[a..b] else r == []
  {
    var a := SliceIndex(start, |s|);
    var b := SliceIndex(end, |s|);
    if a < b then s[a..b] else []
  }

  /** `s.slice(start, start + width)`. */
  function Window<T>(s: seq<T>, start: int, width: PageSize): (r: seq<T>)
    ensures |r| <= width
    ensures forall x :: x in r ==> x in s
    ensures start >= 0 ==>
      |r| == (if start >= |s| then 0 else if |s| - start < width then |s| - start else width)
    ensures start >= 0 ==> forall i :: 0 <= i < |r| ==> start + i < |s| && r[i] == s[start + i]
    ensures start + width == 0 ==> r == []
  {
    JsSlice(s, start, start + width)
  }

  /** The index of the first row of page `page`. */
  function PageStart(page: int, perPage: PageSize): (r: int)
    ensures page >= 1 ==> r >= 0
    ensures page == 0 ==> r + perPage == 0
  {
    if page >= 1 then
      MulMono(0, page - 1, perPage);
      (page - 1) * perPage
    else
      (page - 1) * perPage
  }

  /** The rows of page `page`: `s.slice((page - 1) * perPage, (page - 1) * perPage + perPage)`. */
  function PageItems<T>(s: seq<T>, page: int, perPage: PageSize): (r: seq<T>)
    ensures |r| <= perPage
    ensures forall x :: x in r ==> x in s
    ensures page >= 1 ==> var start := PageStart(page, perPage);
      |r| == (if start >= |s| then 0 else if |s| - start < perPage then |s| - start else perPage)
    ensures page >= 1 ==> var start := PageStart(page, perPage);
      forall i :: 0 <= i < |r| ==> start + i < |s| && r[i] == s[start + i]
    ensures page == 0 ==> r == []
  {
    Window(s, PageStart(page, perPage), perPage)
  }

  /** Row `k` lies on page `k / perPage + 1`, which is within `1..TotalPages`. */
  lemma {:induction false} RowPage(k: nat, n: nat, perPage: PageSize)
    requires k < n
    ensures var p := k / perPage + 1;
      1 <= p <= TotalPages(n, perPage) &&
      PageStart(p, perPage) <= k < PageStart(p, perPage) + perPage
  {
    var q := k / perPage;
    DivBounds(k, perPage);
    MulCancel(q, TotalPages(n, perPage), perPage);
  }

  /** Every row of the list is shown on the page `RowPage` names, at its offset from the page start. */
  lemma {:induction false} PageOfRow<T>(s: seq<T>, k: nat, perPage: PageSize)
    requires k < |s|
    ensures var p := k / perPage + 1; var start := PageStart(p, perPage);
      1 <= p <= TotalPages(|s|, perPage) &&
      start <= k && k - start < |PageItems(s, p, perPage)| &&
      PageItems(s, p, perPage)[k - start] == s[k]
  {
    var p := k / perPage + 1;
    RowPage(k, |s|, perPage);
    var start := PageStart(p, perPage);
    assert |PageItems(s, p, perPage)| == (if |s| - start < perPage then |s| - start else perPage);
  }

  lemma MulCancel(a: int, b: int, k: PageSize)
    requires a * k < b * k
    ensures a < b
  {
    if a >= b {
      MulMono(b, a, k);
    }
  }

  lemma MulMono(a: int, b: int, k: PageSize)
    requires a <= b
    ensures a * k <= b * k
  {
  }

  /** `Math.max(page - 1, 1)`. */
  function Previous(page: int): (r: int)
    ensures r >= 1
    ensures page > 1 ==> r == page - 1
    ensures page <= 1 ==> r == 1
  {
    if page - 1 > 1 then page - 1 else 1
  }

  /** `Math.min(page + 1, totalPages)`. */
  function Next(page: int, totalPages: nat): (r: int)
    ensures r <= totalPages
    ensures page < totalPages ==> r == page + 1
    ensures page >= totalPages ==> r == totalPages
  {
    if page + 1 < totalPages then page + 1 else totalPages
  }

  /** From any page in range, Previous and Next stay in `[1, totalPages]`. */
  lemma PagerStaysInRange(page: int, totalPages: nat)
    requires 1 <= page <= totalPages
    ensures 1 <= Previous(page) <= totalPages
    ensures 1 <= Next(page, totalPages) <= totalPages
    ensures Previous(page) <= page <= Next(page, totalPages)
  {
  }

  /** With no rows, Next lands on page 0: the screens hide the pager in that case. */
  lemma NextOnEmptyList(page: int)
    requires page >= 0
    ensures Next(page, TotalPages(0, ItemsPerPage)) == 0
  {
  }

  /** The management tables show the pager only when there is more than one page of rows. */
  predicate PagerShown(n: nat, perPage: PageSize) {
    n > perPage
  }

  /** Whenever the pager is shown there are at least two pages, so Next from page 1 moves on. */
  lemma PagerShownHasTwoPages(n: nat, perPage: PageSize)
    requires PagerShown(n, perPage)
    ensures TotalPages(n, perPage) >= 2
    ensures Next(1, TotalPages(n, perPage)) == 2
  {
  }

  /** The search / page state of a client-side paginated list. */
  datatype ListView = ListView(searchTerm: string, locationFilter: string, page: int)

  const InitialView := ListView("", "", 1)

  /** Typing in the search box: the term changes and the page goes back to 1. */
  function OnSearchChange(v: ListView, term: string): (r: ListView)
    ensures r.searchTerm == term && r.page == 1
    ensures r.locationFilter == v.locationFilter
  {
    v.(searchTerm := term, page := 1)
  }

  /** Picking a location in the filter drop-down: the filter changes and the page goes back to 1. */
  function OnLocationFilterChange(v: ListView, locationId: string): (r: ListView)
    ensures r.locationFilter == locationId && r.page == 1
    ensures r.searchTerm == v.searchTerm
  {
    v.(locationFilter := locationId, page := 1)
  }

  /** The Previous button: one page back, but never below page 1. */
  function OnPrevious(v: ListView): (r: ListView)
    ensures r.page >= 1
    ensures v.page > 1 ==> r.page == v.page - 1
    ensures v.page <= 1 ==> r.page == 1
    ensures r.searchTerm == v.searchTerm && r.locationFilter == v.locationFilter
  {
    v.(page := Previous(v.page))
  }

  /** The Next button: one page on, but never beyond the last page. */
  function OnNext(v: ListView, totalPages: nat): (r: ListView)
    ensures r.page <= totalPages
    ensures v.page < totalPages ==> r.page == v.page + 1
    ensures v.page >= totalPages ==> r.page == totalPages
    ensures r.searchTerm == v.searchTerm && r.locationFilter == v.locationFilter
  {
    v.(page := Next(v.page, totalPages))
  }
}
