/** Pagination query defaults, the page-count arithmetic of
    `PaginationMetaDto` and the `PaginatedResponseDto` envelope. */
module Pagination {
  import opened Text

  // ---------------------------------------------------------------------
  // Integer division with JavaScript's rounding functions

  /** `Math.floor(a / b)` for integers. */
  function FloorDiv(a: int, b: int): (q: int)
    requires b != 0
    ensures b > 0 ==> q * b <= a < q * b + b
    ensures b < 0 ==> q * b >= a > q * b + b
  {
    if b > 0 then a / b else (-a) / (-b)
  }

  /** `Math.ceil(a / b)` for integers. */
  function CeilDiv(a: int, b: int): (q: int)
    requires b != 0
    ensures b > 0 ==> q * b - b < a <= q * b
  {
    -FloorDiv(-a, b)
  }

  /** The value of `Math.ceil(total / limit)`: a division by zero gives
      `Infinity`, `-Infinity` or `NaN` as in JavaScript. */
  datatype PageCount = Finite(n: int) | Infinity | NegInfinity | NotANumber

  function PageCountOf(total: int, limit: int): (c: PageCount)
    ensures limit != 0 <==> c.Finite?
    ensures limit > 0 ==> c.n * limit - limit < total <= c.n * limit
    ensures limit == 0 ==> (c == Infinity <==> total > 0) && (c == NotANumber <==> total == 0)
  {
    if limit != 0 then Finite(CeilDiv(total, limit))
    else if total > 0 then Infinity
    else if total < 0 then NegInfinity
    else NotANumber
  }

  /** `page < count` with JavaScript's comparison against the special values. */
  predicate Below(page: int, count: PageCount) {
    match count
    case Finite(n) => page < n
    case Infinity => true
    case NegInfinity => false
    case NotANumber => false
  }

  // ---------------------------------------------------------------------
  // Query defaults

  datatype SortOrder = Asc | Desc

  datatype PaginationQuery = PaginationQuery(
    page: int, limit: int, search: Option<string>, sortBy: Option<string>, sortOrder: SortOrder)

  const DefaultPage := 1
  const DefaultLimit := 10
  const MaxLimit := 100

  /** A query that names nothing gets the class defaults. */
  function DefaultQuery(): (q: PaginationQuery)
    ensures q.page == 1 && q.limit == 10 && q.sortOrder == Desc
    ensures 1 <= q.limit <= MaxLimit
    ensures q.search.None? && q.sortBy.None?
  {
    PaginationQuery(DefaultPage, DefaultLimit, None, None, Desc)
  }

  // ---------------------------------------------------------------------
  // PaginationMetaDto

  datatype PaginationMeta = PaginationMeta(
    page: int, limit: int, total: int, totalPages: PageCount,
    hasNextPage: bool, hasPreviousPage: bool,
    nextPage: Option<int>, previousPage: Option<int>)

  /** The `PaginationMetaDto` constructor. */
  function NewPaginationMeta(page: int, limit: int, total: int): (m: PaginationMeta)
    ensures m.page == page && m.limit == limit && m.total == total
    ensures m.totalPages == PageCountOf(total, limit)
    ensures m.hasNextPage <==> Below(page, m.totalPages)
    ensures m.hasPreviousPage <==> page > 1
    ensures m.nextPage == (if m.hasNextPage then Some(page + 1) else None)
    ensures m.previousPage == (if m.hasPreviousPage then Some(page - 1) else None)
  {
    var totalPages := PageCountOf(total, limit);
    var hasNext := Below(page, totalPages);
    var hasPrevious := page > 1;
    PaginationMeta(page, limit, total, totalPages, hasNext, hasPrevious,
      if hasNext then Some(page + 1) else None,
      if hasPrevious then Some(page - 1) else None)
  }

  /** With a positive limit there is a next page exactly when the items of
      pages 1..page do not already cover the total. */
  lemma {:induction false} HasNextIffMoreItems(page: int, limit: int, total: int)
    requires limit > 0
    ensures NewPaginationMeta(page, limit, total).hasNextPage <==> page * limit < total
  {
    var n := CeilDiv(total, limit);
    assert n * limit - limit < total <= n * limit;
    if page < n {
      MulMonotone(page, n - 1, limit);
    } else {
      MulMonotone(n, page, limit);
    }
  }

  lemma {:induction false} MulMonotone(a: int, b: int, c: int)
    requires a <= b && c > 0
    ensures a * c <= b * c
  {
  }

  /** With a positive limit and a non-negative total, the page count is the
      least number of pages of `limit` items that hold `total` items. */
  lemma {:induction false} PageCountIsLeast(limit: int, total: int)
    requires limit > 0 && total >= 0
    ensures PageCountOf(total, limit).Finite?
    ensures var n := PageCountOf(total, limit).n;
      n >= 0 && total <= n * limit && (n == 0 || (n - 1) * limit < total)
  {
    var n := PageCountOf(total, limit).n;
    if n < 0 {
      MulMonotone(n, -1, limit);
    }
  }

  // ---------------------------------------------------------------------
  // PaginatedResponseDto

  datatype PaginatedResponse<T> = PaginatedResponse(
    data: seq<T>, meta: PaginationMeta, status: string, message: string)

  const PaginatedMessage := "Data retrieved successfully"

  function NewPaginatedResponse<T>(data: seq<T>, page: int, limit: int, total: int): (r: PaginatedResponse<T>)
    ensures r.data == data
    ensures r.status == "success" && r.message == PaginatedMessage
    ensures r.meta.page == page && r.meta.limit == limit && r.meta.total == total
    ensures r.meta == NewPaginationMeta(page, limit, total)
  {
    PaginatedResponse(data, NewPaginationMeta(page, limit, total), "success", PaginatedMessage)
  }
}
