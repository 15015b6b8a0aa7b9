/** `PaginationInterceptor`: reads page, limit and sort order from the query
    string, clamps them, attaches the result to the request, and wraps a
    plain array response in a paginated envelope. */
module PaginationInterceptor {
  import opened Text
  import opened Values
  import opened Pagination

  datatype PaginationOptions = PaginationOptions(
    page: int, limit: int, skip: int,
    search: Option<string>, sortBy: Option<string>, sortOrder: SortOrder)

  /** Options that the interceptor can produce. */
  predicate ValidOptions(o: PaginationOptions) {
    o.page >= 1 && 1 <= o.limit <= MaxLimit && o.skip == (o.page - 1) * o.limit
  }

  /** The part of the HTTP request the interceptor reads and writes. */
  class Request {
    const query: map<string, string>
    var paginationOptions: Option<PaginationOptions>

    constructor (query: map<string, string>)
      ensures this.query == query && paginationOptions.None?
    {
      this.query := query;
      paginationOptions := None;
    }
  }

  function Param(query: map<string, string>, name: string): (r: Option<string>)
    ensures r.Some? <==> name in query
    ensures r.Some? ==> r.value == query[name]
  {
    if name in query then Some(query[name]) else None
  }

  /** `query.sortOrder === 'asc' || query.sortOrder === 'desc' ? query.sortOrder : 'desc'` */
  function SortOrderOf(s: Option<string>): (o: SortOrder)
    ensures o == Asc <==> s == Some("asc")
  {
    if s == Some("asc") then Asc else Desc
  }

  /** The options the interceptor derives from `query`: page and limit parsed
      with their defaults, page clamped from below, limit from both sides, and
      search, sortBy and sortOrder taken from the query. */
  predicate OptionsOf(query: map<string, string>, o: PaginationOptions) {
    && (var p := ParseIntOr(Param(query, "page"), DefaultPage);
        o.page == (if p < 1 then DefaultPage else p))
    && (var l := ParseIntOr(Param(query, "limit"), DefaultLimit);
        o.limit == (if l < 1 then DefaultLimit else if l > MaxLimit then MaxLimit else l))
    && o.search == Param(query, "search") && o.sortBy == Param(query, "sortBy")
    && o.sortOrder == SortOrderOf(Param(query, "sortOrder"))
  }

  /** Builds the options as the interceptor does: parse with defaults, then
      clamp page from below and limit from both sides, then recompute the
      skip from the clamped values. A limit below 1 falls back to 10, not 1. */
  method BuildOptions(query: map<string, string>) returns (o: PaginationOptions)
    ensures ValidOptions(o)
    ensures o.skip >= 0
    ensures OptionsOf(query, o)
  {
    var page := ParseIntOr(Param(query, "page"), DefaultPage);
    var limit := ParseIntOr(Param(query, "limit"), DefaultLimit);
    var skip := (page - 1) * limit;
    var sortOrder := SortOrderOf(Param(query, "sortOrder"));
    if page < 1 {
      page := DefaultPage;
    }
    if limit < 1 {
      limit := DefaultLimit;
    }
    if limit > MaxLimit {
      limit := MaxLimit;
    }
    skip := (page - 1) * limit;
    SkipIsMultiple(page - 1, limit);
    o := PaginationOptions(page, limit, skip, Param(query, "search"), Param(query, "sortBy"), sortOrder);
  }

  lemma {:induction false} SkipIsMultiple(k: nat, limit: int)
    requires limit >= 1
    ensures k * limit >= 0
  {
    MulMonotone(0, k, limit);
  }

  /** The request half of `intercept`: the options are attached to the request. */
  method AttachOptions(request: Request)
    modifies request
    ensures request.paginationOptions.Some? && ValidOptions(request.paginationOptions.value)
    ensures OptionsOf(request.query, request.paginationOptions.value)
  {
    var o := BuildOptions(request.query);
    request.paginationOptions := Some(o);
  }

  const StatusSuccess := "success"

  /** The `PaginationMetaDto` fields as a JSON object. */
  function MetaValue(m: PaginationMeta): Value
    requires m.totalPages.Finite?
  {
    Obj([
      ("page", Num(m.page)), ("limit", Num(m.limit)), ("total", Num(m.total)),
      ("totalPages", Num(m.totalPages.n)),
      ("hasNextPage", Bool(m.hasNextPage)), ("hasPreviousPage", Bool(m.hasPreviousPage)),
      ("nextPage", if m.nextPage.Some? then Num(m.nextPage.value) else Null),
      ("previousPage", if m.previousPage.Some? then Num(m.previousPage.value) else Null)])
  }

  /** The response half of `intercept`. Data that already has truthy `meta`
      and `items` is kept, and so is anything that is not an array; an array
      is wrapped whole (no slicing), its length is the total, and the meta
      fields are computed inline from the options. */
  function MapResponse(data: Value, o: PaginationOptions): (r: Value)
    requires ValidOptions(o)
    ensures !data.Arr? ==> r == data
    ensures data.Arr? ==>
      && Get(r, "items") == data
      && Get(r, "meta") == MetaValue(NewPaginationMeta(o.page, o.limit, |data.elems|))
      && Get(r, "status") == Str(StatusSuccess)
      && Get(r, "message") == Str(PaginatedMessage)
  {
    if Truthy(data) && Truthy(Get(data, "meta")) && Truthy(Get(data, "items")) then data
    else if data.Arr? then
      var total := |data.elems|;
      var totalPages := CeilDiv(total, o.limit);
      var meta := Obj([
        ("page", Num(o.page)), ("limit", Num(o.limit)), ("total", Num(total)),
        ("totalPages", Num(totalPages)),
        ("hasNextPage", Bool(o.page < totalPages)), ("hasPreviousPage", Bool(o.page > 1)),
        ("nextPage", if o.page < totalPages then Num(o.page + 1) else Null),
        ("previousPage", if o.page > 1 then Num(o.page - 1) else Null)]);
      var fields := [("items", data), ("meta", meta), ("status", Str(StatusSuccess)), ("message", Str(PaginatedMessage))];
      GetAt(fields, 1);
      GetAt(fields, 2);
      GetAt(fields, 3);
      Obj(fields)
    else data
  }

  /** Mapping a response twice is the same as mapping it once: a wrapped
      array has truthy `meta` and `items`. */
  lemma {:induction false} MapResponseIdempotent(data: Value, o: PaginationOptions)
    requires ValidOptions(o)
    ensures MapResponse(MapResponse(data, o), o) == MapResponse(data, o)
  {
  }

  /** The wrapped array is on its last page exactly when the options' page
      and limit already cover its length. */
  lemma {:induction false} WrappedHasNext(data: seq<Value>, o: PaginationOptions)
    requires ValidOptions(o)
    ensures Get(Get(MapResponse(Arr(data), o), "meta"), "hasNextPage") == Bool(o.page * o.limit < |data|)
  {
    HasNextIffMoreItems(o.page, o.limit, |data|);
    var meta := MetaValue(NewPaginationMeta(o.page, o.limit, |data|));
    GetAt(meta.fields, 4);
  }
}
