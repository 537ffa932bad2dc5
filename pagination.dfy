/**
 * Offset pagination over a query's result rows: `PaginationABC.total_pages`,
 * the memoising `SAPagination` and the eager `AsyncSAPagination.create`.
 * A query is modelled by the rows it returns when it is executed, which the
 * caller passes to each access (the table may change between two accesses).
 */
module Pagination {
  import opened Wrappers

  const DefaultPageSize := 20

  /** `ceil(total / page_size) or 1`, the division done exactly. */
  function TotalPages(total: nat, pageSize: nat): (n: nat)
    requires pageSize > 0
    ensures n >= 1
    ensures total == 0 ==> n == 1
    ensures total > 0 ==> (n - 1) * pageSize < total <= n * pageSize
  {
    var c := (total + pageSize - 1) / pageSize;
    CeilingBounds(total, pageSize, c);
    if c == 0 then 1 else c
  }

  /** The integer ceiling of total / pageSize lies between the two neighbouring multiples of pageSize. */
  lemma CeilingBounds(total: nat, pageSize: nat, c: nat)
    requires pageSize > 0 && c == (total + pageSize - 1) / pageSize
    ensures total == 0 ==> c == 0
    ensures total > 0 ==> c >= 1 && (c - 1) * pageSize < total <= c * pageSize
  {
    var q, m := (total + pageSize - 1) / pageSize, (total + pageSize - 1) % pageSize;
    assert total + pageSize - 1 == q * pageSize + m && 0 <= m < pageSize;
    if total > 0 {
      assert c * pageSize >= total by {
        assert c * pageSize == total + pageSize - 1 - m;
      }
      assert (c - 1) * pageSize == c * pageSize - pageSize;
    }
  }

  function Min(a: int, b: int): int
  {
    if a < b then a else b
  }

  /** The rows `query.limit(page_size).offset((page - 1) * page_size)` returns for a page of 1 or more. */
  function PageSlice<T>(rows: seq<T>, page: nat, pageSize: nat): (r: seq<T>)
    requires page >= 1 && pageSize > 0
    ensures |r| <= pageSize
    ensures (page - 1) * pageSize >= |rows| ==> r == []
    ensures r != [] ==> (page - 1) * pageSize + |r| <= |rows|
    ensures forall i :: 0 <= i < |r| ==> (page - 1) * pageSize + i < |rows| && r[i] == rows[(page - 1) * pageSize + i]
    ensures (page - 1) * pageSize < |rows| ==> |r| == Min(pageSize, |rows| - (page - 1) * pageSize)
  {
    var offset := (page - 1) * pageSize;
    if offset >= |rows| then [] else rows[offset..Min(offset + pageSize, |rows|)]
  }

  /** What the database raises: a negative `OFFSET` (from a page below 1) is refused. */
  datatype DbError = NegativeOffset

  /** `_paginate` executed: the page's slice, or the database's refusal of a page below 1. */
  function Paginate<T>(rows: seq<T>, page: int, pageSize: nat): (r: Result<seq<T>, DbError>)
    requires pageSize > 0
    ensures r.Ok? <==> page >= 1
    ensures r.Ok? ==> r.value == PageSlice(rows, page, pageSize)
  {
    if page < 1 then Err(NegativeOffset) else Ok(PageSlice(rows, page, pageSize))
  }

  /** Pages 1 to k, one after the other. */
  function PagesUpTo<T>(rows: seq<T>, pageSize: nat, k: nat): seq<T>
    requires pageSize > 0
  {
    if k == 0 then [] else PagesUpTo(rows, pageSize, k - 1) + PageSlice(rows, k, pageSize)
  }

  /** Pages 1 to k together are the first k * pageSize rows (or all of them). */
  lemma {:induction false} PagesUpToIsPrefix<T>(rows: seq<T>, pageSize: nat, k: nat)
    requires pageSize > 0
    ensures PagesUpTo(rows, pageSize, k) == rows[..Min(k * pageSize, |rows|)]
  {
    if k > 0 {
      PagesUpToIsPrefix(rows, pageSize, k - 1);
      var a, b := Min((k - 1) * pageSize, |rows|), Min(k * pageSize, |rows|);
      assert k * pageSize == (k - 1) * pageSize + pageSize;
      var s := PageSlice(rows, k, pageSize);
      if (k - 1) * pageSize < |rows| {
        assert s == rows[a..b];
      } else {
        assert s == [] && a == b;
      }
      assert rows[..a] + rows[a..b] == rows[..b];
    }
  }

  /** Read in order, pages 1 to `total_pages` give back every row exactly once, in result order. */
  lemma PagesCoverRows<T>(rows: seq<T>, pageSize: nat)
    requires pageSize > 0
    ensures PagesUpTo(rows, pageSize, TotalPages(|rows|, pageSize)) == rows
  {
    PagesUpToIsPrefix(rows, pageSize, TotalPages(|rows|, pageSize));
  }

  /** An earlier page's rows all come before a later page's rows: pages never overlap. */
  lemma PagesDisjoint<T>(rows: seq<T>, pageSize: nat, p: nat, q: nat)
    requires pageSize > 0 && 1 <= p < q
    ensures (p - 1) * pageSize + |PageSlice(rows, p, pageSize)| <= (q - 1) * pageSize
  {
    assert (q - 1) * pageSize >= p * pageSize == (p - 1) * pageSize + pageSize;
  }

  /** Every page up to `total_pages` but the last is full, and the last is not empty unless there are no rows. */
  lemma PagesWithinTotalAreFilled<T>(rows: seq<T>, pageSize: nat, p: nat)
    requires pageSize > 0 && 1 <= p <= TotalPages(|rows|, pageSize)
    ensures p < TotalPages(|rows|, pageSize) ==> |PageSlice(rows, p, pageSize)| == pageSize
    ensures |rows| > 0 ==> |PageSlice(rows, p, pageSize)| > 0
  {
    var n := TotalPages(|rows|, pageSize);
    if |rows| > 0 {
      assert (p - 1) * pageSize <= (n - 1) * pageSize < |rows|;
    }
    if p < n {
      assert p * pageSize <= (n - 1) * pageSize < |rows|;
      assert (p - 1) * pageSize + pageSize == p * pageSize;
    }
  }

  /** `SAPagination`: `_total` and `_items` are computed on first access and kept while truthy. */
  class SAPagination<T> {
    var page: int
    const pageSize: nat
    var cachedTotal: Option<nat>
    var cachedItems: Option<seq<T>>

    constructor (page: int, pageSize: nat)
      requires pageSize > 0
      ensures this.page == page && this.pageSize == pageSize
      ensures cachedTotal == None && cachedItems == None
    {
      this.page := page;
      this.pageSize := pageSize;
      cachedTotal := None;
      cachedItems := None;
    }

    /** The `total` property: a missing or zero total is counted again. */
    method Total(rows: seq<T>) returns (t: nat)
      modifies this
      ensures old(cachedTotal) == None || old(cachedTotal) == Some(0) ==> t == |rows|
      ensures !(old(cachedTotal) == None || old(cachedTotal) == Some(0)) ==> t == old(cachedTotal).value
      ensures cachedTotal == Some(t)
      ensures page == old(page) && cachedItems == old(cachedItems)
    {
      if cachedTotal == None || cachedTotal == Some(0) {
        cachedTotal := Some(|rows|);
      }
      t := cachedTotal.value;
    }

    /**
     * The `items` property: unless a non-empty page is cached, a page beyond
     * `total_pages` goes back to 1 and the page is fetched.
     */
    method Items(rows: seq<T>) returns (r: Result<seq<T>, DbError>)
      requires pageSize > 0
      modifies this
      ensures old(cachedItems).Some? && old(cachedItems).value != []
              ==> r == Ok(old(cachedItems).value) && page == old(page) && cachedTotal == old(cachedTotal)
      ensures !(old(cachedItems).Some? && old(cachedItems).value != []) ==>
                && cachedTotal == Some(if old(cachedTotal) == None || old(cachedTotal) == Some(0) then |rows| else old(cachedTotal).value)
                && var pages := TotalPages(cachedTotal.value, pageSize);
                && page == (if old(page) > pages then 1 else old(page))
                && (old(page) >= 1 ==> 1 <= page <= pages)
                && r == Paginate(rows, page, pageSize)
                && cachedItems == (if r.Ok? then Some(r.value) else old(cachedItems))
    {
      if cachedItems.Some? && cachedItems.value != [] {
        return Ok(cachedItems.value);
      }
      var total := Total(rows);
      if page > TotalPages(total, pageSize) {
        page := 1;
      }
      r := Paginate(rows, page, pageSize);
      if r.Ok? {
        cachedItems := Some(r.value);
      }
    }
  }

  /** `AsyncSAPagination`: `create` counts, corrects the page, then fetches, in that order. */
  class AsyncSAPagination<T> {
    var page: int
    const pageSize: nat
    var total: Option<nat>
    var items: Option<seq<T>>

    constructor (page: int, pageSize: nat)
      requires pageSize > 0
      ensures this.page == page && this.pageSize == pageSize && total == None && items == None
    {
      this.page := page;
      this.pageSize := pageSize;
      total := None;
      items := None;
    }

    method Create(rows: seq<T>) returns (r: Result<(), DbError>)
      requires pageSize > 0
      modifies this
      ensures total == Some(|rows|)
      ensures page == (if old(page) > TotalPages(|rows|, pageSize) then 1 else old(page))
      ensures old(page) >= 1 ==> 1 <= page <= TotalPages(|rows|, pageSize)
      ensures r.Ok? <==> page >= 1
      ensures r.Ok? ==> items == Some(PageSlice(rows, page, pageSize))
      ensures r.Err? ==> items == old(items)
    {
      total := Some(|rows|);
      if page > TotalPages(total.value, pageSize) {
        page := 1;
      }
      var fetched := Paginate(rows, page, pageSize);
      if fetched.Err? {
        return Err(fetched.error);
      }
      items := Some(fetched.value);
      r := Ok(());
    }
  }
}
