/**
 * internal/model/pagination.go: the page/page_size pair bound from a query string,
 * normalised in place by GetOffset and GetLimit, and the paginated response envelope.
 */
module Pagination {
  import opened Strings

  const DefaultPageSize: int := 10
  const MaxPageSize: int := 100

  /** The page size GetLimit settles on: 10 for a missing size, at most 100. */
  function LimitFor(pageSize: int): (r: int)
    ensures 1 <= r <= MaxPageSize
    ensures 1 <= pageSize <= MaxPageSize ==> r == pageSize
    ensures pageSize > MaxPageSize ==> r == MaxPageSize
    ensures pageSize <= 0 ==> r == DefaultPageSize
  {
    if pageSize <= 0 then DefaultPageSize else if pageSize > MaxPageSize then MaxPageSize else pageSize
  }

  /** Applying the limit rule to its own result changes nothing. */
  lemma LimitForIdempotent(pageSize: int)
    ensures LimitFor(LimitFor(pageSize)) == LimitFor(pageSize)
  {
  }

  /** The query parameters of a list request; GetOffset and GetLimit write their defaults back. */
  class PaginationParams {
    var page: int
    var pageSize: int

    constructor (page: int, pageSize: int)
      ensures this.page == page && this.pageSize == pageSize
    {
      this.page := page;
      this.pageSize := pageSize;
    }

    /** Rewrites a non-positive page to 1 and a non-positive size to 10; the size is NOT capped. */
    method GetOffset() returns (offset: int)
      modifies this
      ensures page == (if old(page) <= 0 then 1 else old(page))
      ensures pageSize == (if old(pageSize) <= 0 then DefaultPageSize else old(pageSize))
      ensures offset == Offset64(old(page), old(pageSize))
      ensures OffsetFor(old(page), old(pageSize)) <= MaxInt64 ==> offset == OffsetFor(old(page), old(pageSize)) && offset >= 0
    {
      if page <= 0 {
        page := 1;
      }
      if pageSize <= 0 {
        pageSize := 10;
      }
      offset := WrapInt64((page - 1) * pageSize);
    }

    /** Stores the limit rule's result back into the size and returns it. */
    method GetLimit() returns (limit: int)
      modifies this
      ensures limit == LimitFor(old(pageSize)) && 1 <= limit <= MaxPageSize
      ensures pageSize == limit && page == old(page)
    {
      if pageSize <= 0 {
        pageSize := 10;
      }
      if pageSize > 100 {
        pageSize := 100;
      }
      limit := pageSize;
    }
  }

  /** The offset (page - 1) * size after defaulting, in unbounded integers: never negative. */
  function OffsetFor(page: int, pageSize: int): (r: int)
    ensures r >= 0
    ensures page >= 1 && pageSize >= 1 ==> r == (page - 1) * pageSize
  {
    var p := if page <= 0 then 1 else page;
    var s := if pageSize <= 0 then DefaultPageSize else pageSize;
    assert (p - 1) * s >= 0;
    (p - 1) * s
  }

  /** 2^64: Go's int is 64 bits wide and its arithmetic wraps modulo this. */
  const Int64Modulus: int := 0x1_0000_0000_0000_0000

  /** Go's int64 arithmetic: the value congruent to x modulo 2^64 within the int64 range. */
  function WrapInt64(x: int): (r: int)
    ensures MinInt64 <= r <= MaxInt64
    ensures MinInt64 <= x <= MaxInt64 ==> r == x
    ensures (r - x) % Int64Modulus == 0
  {
    (x - MinInt64) % Int64Modulus + MinInt64
  }

  /** The offset GetOffset returns: the product computed in Go's int, which wraps past 2^63 - 1. */
  function Offset64(page: int, pageSize: int): (r: int)
    ensures MinInt64 <= r <= MaxInt64
    ensures OffsetFor(page, pageSize) <= MaxInt64 ==> r == OffsetFor(page, pageSize) && r >= 0
  {
    WrapInt64(OffsetFor(page, pageSize))
  }

  /** A page far enough out wraps the offset negative: page 2^61 + 1 of size 4 starts at -2^63. */
  lemma OffsetWrapsNegative()
    ensures OffsetFor(0x2000_0000_0000_0001, 4) == 0x8000_0000_0000_0000
    ensures Offset64(0x2000_0000_0000_0001, 4) == MinInt64
  {
    assert OffsetFor(0x2000_0000_0000_0001, 4) == 0x8000_0000_0000_0000;
    assert WrapInt64(0x8000_0000_0000_0000) == MinInt64;
  }

  /** A second GetLimit returns the same value and leaves the parameters as they were. */
  method GetLimitTwice(p: PaginationParams) returns (first: int, second: int)
    modifies p
    ensures first == second == p.pageSize && p.page == old(p.page)
  {
    first := p.GetLimit();
    second := p.GetLimit();
  }

  /** Go's `/` on int: truncation toward zero. */
  function GoQuot(a: int, b: int): int
    requires b != 0
  {
    if a >= 0 then (if b > 0 then a / b else -(a / -b))
    else (if b > 0 then -((-a) / b) else (-a) / (-b))
  }

  /** Go's `%` on int: the remainder takes the sign of the dividend. */
  function GoRem(a: int, b: int): int
    requires b != 0
  {
    a - GoQuot(a, b) * b
  }

  datatype PageInfo = PageInfo(page: int, pageSize: int, total: int, totalPage: int)
  datatype PaginatedResponse<T> = PaginatedResponse(data: T, pagination: PageInfo)

  /** NewPaginatedResponse: echoes page, size, total and data; the size must not be 0 (Go divides by it). */
  function NewPaginatedResponse<T>(data: T, page: int, pageSize: int, total: int): (r: PaginatedResponse<T>)
    requires pageSize != 0
    ensures r.data == data && r.pagination.page == page
    ensures r.pagination.pageSize == pageSize && r.pagination.total == total
  {
    var totalPage := GoQuot(total, pageSize) + (if GoRem(total, pageSize) > 0 then 1 else 0);
    PaginatedResponse(data, PageInfo(page, pageSize, total, totalPage))
  }

  /** For a positive size the page count is the ceiling of total / size: 0 pages for no rows. */
  lemma TotalPageIsCeiling<T>(data: T, page: int, pageSize: int, total: int)
    requires pageSize > 0 && total >= 0
    ensures var tp := NewPaginatedResponse(data, page, pageSize, total).pagination.totalPage;
      tp >= 0 && tp * pageSize >= total && (tp == 0 || (tp - 1) * pageSize < total)
  {
    var q := total / pageSize;
    var rem := total % pageSize;
    assert GoQuot(total, pageSize) == q;
    assert total == q * pageSize + rem && 0 <= rem < pageSize;
    assert GoRem(total, pageSize) == rem;
    var tp := NewPaginatedResponse(data, page, pageSize, total).pagination.totalPage;
    if rem > 0 {
      assert tp == q + 1;
      assert tp * pageSize == q * pageSize + pageSize;
    } else {
      assert tp == q;
      if q > 0 {
        assert (q - 1) * pageSize == q * pageSize - pageSize;
      }
    }
  }

  /** The rows one list query reads: LIMIT rows starting at OFFSET. */
  datatype Span = Span(offset: int, limit: int)

  /**
   * The row window a repository query reads for one request, as written: GetOffset runs
   * before GetLimit, so the offset uses the uncapped size while the limit uses the capped one.
   */
  function WindowAsWritten(page: int, pageSize: int): (w: Span)
    ensures w.offset == Offset64(page, pageSize) && 1 <= w.limit <= MaxPageSize
  {
    var sizeAfterOffset := if pageSize <= 0 then DefaultPageSize else pageSize;
    Span(Offset64(page, pageSize), LimitFor(sizeAfterOffset))
  }

  /** A repository list query: Offset(params.GetOffset()) then Limit(params.GetLimit()) on one params value. */
  method QueryWindow(p: PaginationParams) returns (w: Span)
    modifies p
    ensures w == WindowAsWritten(old(p.page), old(p.pageSize))
    ensures p.pageSize == w.limit
  {
    var offset := p.GetOffset();
    var limit := p.GetLimit();
    w := Span(offset, limit);
  }

  /** Page 2 with page_size 500 starts at row 500 but reads only 100 rows: rows 100..499 are never listed. */
  lemma WindowAsWrittenSkipsRows()
    ensures WindowAsWritten(1, 500) == Span(0, 100)
    ensures WindowAsWritten(2, 500) == Span(500, 100)
    ensures WindowAsWritten(2, 500).offset != WindowAsWritten(1, 500).offset + WindowAsWritten(1, 500).limit
  {
  }

  /** The evidently intended window: offset and limit both use the capped size (the offset still in Go's int). */
  function Window(page: int, pageSize: int): (w: Span)
    ensures w.limit == LimitFor(pageSize)
    ensures w.offset == Offset64(page, w.limit)
    ensures OffsetFor(page, w.limit) <= MaxInt64 ==> w.offset >= 0
  {
    var limit := LimitFor(pageSize);
    Span(Offset64(page, limit), limit)
  }

  /** With the intended window, consecutive pages tile the rows with no gap and no overlap, as long as the offsets fit in int. */
  lemma WindowPagesAreContiguous(page: int, pageSize: int)
    requires page >= 1 && page * LimitFor(pageSize) <= MaxInt64
    ensures Window(page + 1, pageSize).offset == Window(page, pageSize).offset + Window(page, pageSize).limit
    ensures Window(1, pageSize).offset == 0
  {
    var l := LimitFor(pageSize);
    assert page * l == (page - 1) * l + l;
  }
}
