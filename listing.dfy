/**
 * Pagination of the product listing: the filtered and sorted products are
 * shown twelve at a time, and the current page is state that the previous,
 * next and numbered buttons replace.
 */
module Listing {

  import opened Util

  const ItemsPerPage: nat := 12

  /** `Math.ceil(n / 12)`: the number of pages for `n` products. */
  function TotalPages(n: nat): (t: nat)
    ensures t == 0 <==> n == 0
    ensures ItemsPerPage * (t - 1) < n <= ItemsPerPage * t || n == t == 0
  {
    (n + ItemsPerPage - 1) / ItemsPerPage
  }

  /** Index of the first product of `page` (pages count from 1): pages start
      twelve products apart, the first at index 0. */
  function StartIndex(page: int): (s: int)
    ensures s % ItemsPerPage == 0
    ensures s >= 0 <==> page >= 1
    ensures page == 1 ==> s == 0
  {
    (page - 1) * ItemsPerPage
  }

  /** `items.slice(start, start + 12)`: the products of `page`, clipped to the
      list; a page past the end is empty. */
  function PageItems<T>(items: seq<T>, page: int): (r: seq<T>)
    requires page >= 1
    ensures |r| <= ItemsPerPage
    ensures StartIndex(page) >= |items| ==> r == []
    ensures StartIndex(page) < |items| ==> r == items[StartIndex(page)..Min(StartIndex(page) + ItemsPerPage, |items|)]
  {
    var start := StartIndex(page);
    if start >= |items| then [] else items[start..Min(start + ItemsPerPage, |items|)]
  }

  /** A page shows products exactly when its number is at most the number of
      pages; a full page precedes every other page. */
  lemma PageNonEmptyIffInRange<T>(items: seq<T>, page: int)
    requires page >= 1
    ensures PageItems(items, page) != [] <==> page <= TotalPages(|items|)
    ensures page < TotalPages(|items|) ==> |PageItems(items, page)| == ItemsPerPage
  {
    var n, t := |items|, TotalPages(|items|);
    if page <= t {
      assert StartIndex(page) <= ItemsPerPage * (t - 1) < n;
    } else {
      assert StartIndex(page) >= ItemsPerPage * t >= n;
    }
  }

  /** Pages 1 to `k`, one after the other. */
  function FirstPages<T>(items: seq<T>, k: nat): seq<T>
  {
    if k == 0 then [] else FirstPages(items, k - 1) + PageItems(items, k)
  }

  lemma {:induction false} FirstPagesArePrefix<T>(items: seq<T>, k: nat)
    ensures FirstPages(items, k) == items[..Min(ItemsPerPage * k, |items|)]
  {
    if k > 0 {
      FirstPagesArePrefix(items, k - 1);
      var lo := Min(ItemsPerPage * (k - 1), |items|);
      var hi := Min(ItemsPerPage * k, |items|);
      assert items[..hi] == items[..lo] + items[lo..hi];
    }
  }

  /** Reading the pages in order shows every product once, in order. */
  lemma PagesPartitionList<T>(items: seq<T>)
    ensures FirstPages(items, TotalPages(|items|)) == items
  {
    FirstPagesArePrefix(items, TotalPages(|items|));
    assert items[..|items|] == items;
  }

  /** The current page is not reset when the list changes: once the list has
      shrunk below the page, the page shows nothing. The empty page replaces
      the grid by the empty-result message, and with it the pagination
      controls, so no control leads back to a page that has products. */
  lemma StalePageIsEmpty<T>(items: seq<T>, page: int)
    requires page > TotalPages(|items|) && page >= 1
    ensures PageItems(items, page) == []
  {
    PageNonEmptyIffInRange(items, page);
  }

  class ProductListing {
    var currentPage: int

    ghost predicate Valid()
      reads this
    {
      currentPage >= 1
    }

    constructor ()
      ensures Valid() && currentPage == 1
    {
      currentPage := 1;
    }

    /** The products the grid shows for the current page. */
    function Shown<T>(items: seq<T>): (r: seq<T>)
      requires Valid()
      reads this
      ensures |r| <= ItemsPerPage
      ensures r == PageItems(items, currentPage)
      ensures r != [] <==> currentPage <= TotalPages(|items|)
    {
      PageNonEmptyIffInRange(items, currentPage);
      PageItems(items, currentPage)
    }

    /** "Anterior": one page back, never below the first. */
    method Previous()
      requires Valid()
      modifies this
      ensures Valid()
      ensures currentPage == Max(1, old(currentPage) - 1)
      ensures old(currentPage) > 1 ==> currentPage == old(currentPage) - 1
    {
      currentPage := Max(1, currentPage - 1);
    }

    /** "Próximo", rendered with the other controls only when the current page
        has products and there is more than one page: one page on, never past
        the last. */
    method Next(totalPages: int)
      requires Valid() && 1 < totalPages && currentPage <= totalPages
      modifies this
      ensures Valid() && currentPage <= totalPages
      ensures currentPage == Min(totalPages, old(currentPage) + 1)
      ensures old(currentPage) < totalPages ==> currentPage == old(currentPage) + 1
    {
      currentPage := Min(totalPages, currentPage + 1);
    }

    /** The numbered button `i + 1`, one for each page. */
    method GoTo(i: int, totalPages: int)
      requires Valid() && 1 < totalPages && currentPage <= totalPages
      requires 0 <= i < totalPages
      modifies this
      ensures Valid() && currentPage == i + 1 && currentPage <= totalPages
    {
      currentPage := i + 1;
    }
  }
}
