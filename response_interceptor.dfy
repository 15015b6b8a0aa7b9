/** `ResponseInterceptor`: gives every controller result the
    `{status, message, data}` envelope, choosing among five cases in a fixed
    order. */
module ResponseInterceptor {
  import opened Text
  import opened Values
  import opened Pagination

  const Success := "success"
  const Error := "error"
  const OperationSuccessful := "Operation successful"

  /** Which of the five cases of the interceptor applies, in the order the
      source tests them. */
  datatype Case = AlreadyWrapped | ItemsAndTotal | PlainArray | SuccessAndMessage | Other

  function CaseOf(data: Value): (c: Case)
    ensures c == AlreadyWrapped <==> data.Obj? && Has(data, "status") && Has(data, "message")
    ensures c == PlainArray <==> data.Arr?
    ensures c == ItemsAndTotal ==> Has(data, "items") && Has(data, "total")
    ensures c == SuccessAndMessage ==> Has(data, "success") && Has(data, "message")
  {
    if Truthy(data) && IsPlainObject(data) && Has(data, "status") && Has(data, "message") then AlreadyWrapped
    else if Truthy(data) && IsPlainObject(data) && Has(data, "items") && Has(data, "total") then ItemsAndTotal
    else if data.Arr? then PlainArray
    else if Truthy(data) && IsPlainObject(data) && Has(data, "success") && Has(data, "message") then SuccessAndMessage
    else Other
  }

  /** `Math.ceil(total / limit)` on a JavaScript value: the division
      converts the total with `Number` first, so `null` counts as 0 and
      `true` as 1, and a total with no numeric value gives `NaN`. */
  function TotalPages(total: Value, limit: int): (r: Value)
    requires limit != 0
    ensures total.Num? ==> r == Num(CeilDiv(total.n, limit))
    ensures total.Null? ==> r == Num(0)
    ensures total == Bool(true) ==> r == Num(CeilDiv(1, limit))
    ensures JsNumber(total).None? <==> r == NaN
  {
    var n := JsNumber(total);
    if n.Some? then Num(CeilDiv(n.value, limit)) else NaN
  }

  /** `page < totalPages`, false against `NaN`. */
  predicate LessThan(page: int, totalPages: Value) {
    totalPages.Num? && page < totalPages.n
  }

  /** The object a response leaves the interceptor as. `page` and `limit`
      are the raw `page` and `limit` query parameters. */
  function Intercept(data: Value, page: Option<string>, limit: Option<string>): (r: Value)
    ensures CaseOf(data) == AlreadyWrapped ==> r == data
    ensures CaseOf(data) != AlreadyWrapped ==>
      && Get(r, "status") == (if CaseOf(data) == SuccessAndMessage && !Truthy(Get(data, "success")) then Str(Error) else Str(Success))
      && Get(r, "message") == (if CaseOf(data) == SuccessAndMessage then Get(data, "message") else Str(OperationSuccessful))
      && Get(r, "data") == (match CaseOf(data)
                            case ItemsAndTotal => Get(data, "items")
                            case SuccessAndMessage => Or(Get(data, "data"), Null)
                            case _ => data)
  {
    match CaseOf(data)
    case AlreadyWrapped => data
    case ItemsAndTotal =>
      var p := NumberOr(page, 1);
      var l := NumberOr(limit, 10);
      PagedEnvelope(Str(Success), Str(OperationSuccessful), Get(data, "items"), PageMeta(Get(data, "total"), p, l))
    case PlainArray =>
      Envelope(Str(Success), Str(OperationSuccessful), data)
    case SuccessAndMessage =>
      Envelope(if Truthy(Get(data, "success")) then Str(Success) else Str(Error),
               Get(data, "message"), Or(Get(data, "data"), Null))
    case Other =>
      Envelope(Str(Success), Str(OperationSuccessful), data)
  }

  /** The `meta` object of a paginated service result. */
  function PageMeta(total: Value, page: int, limit: int): (r: Value)
    requires limit != 0
    ensures Get(r, "total_pages") == TotalPages(total, limit)
    ensures Get(r, "hasNext") == Bool(LessThan(page, TotalPages(total, limit)))
  {
    var totalPages := TotalPages(total, limit);
    var hasNext := Bool(LessThan(page, totalPages));
    MetaFields(total, Num(page), Num(limit), totalPages, hasNext);
    Obj([("total", total), ("page", Num(page)), ("limit", Num(limit)),
         ("total_pages", totalPages), ("hasNext", hasNext)])
  }

  lemma {:induction false} MetaFields(total: Value, page: Value, limit: Value, totalPages: Value, hasNext: Value)
    ensures var fields := [("total", total), ("page", page), ("limit", limit),
                           ("total_pages", totalPages), ("hasNext", hasNext)];
      GetField(fields, "total_pages") == totalPages && GetField(fields, "hasNext") == hasNext
  {
    var fields := [("total", total), ("page", page), ("limit", limit),
                   ("total_pages", totalPages), ("hasNext", hasNext)];
    assert fields[3].0 == "total_pages" && fields[4].0 == "hasNext";
    GetAt(fields, 3);
    GetAt(fields, 4);
  }

  function Envelope(status: Value, message: Value, data: Value): (r: Value)
    ensures Get(r, "status") == status && Get(r, "message") == message && Get(r, "data") == data
    ensures Has(r, "status") && Has(r, "message")
  {
    var fields := [("status", status), ("message", message), ("data", data)];
    GetAt(fields, 1);
    GetAt(fields, 2);
    assert fields[1].0 == "message";
    Obj(fields)
  }

  function PagedEnvelope(status: Value, message: Value, data: Value, meta: Value): (r: Value)
    ensures Get(r, "status") == status && Get(r, "message") == message && Get(r, "data") == data
    ensures Get(r, "meta") == meta
    ensures Has(r, "status") && Has(r, "message")
  {
    var fields := [("status", status), ("message", message), ("data", data), ("meta", meta)];
    GetAt(fields, 1);
    GetAt(fields, 2);
    GetAt(fields, 3);
    assert fields[1].0 == "message";
    Obj(fields)
  }

  /** Every response leaves the interceptor as an object that has both
      `status` and `message`. */
  lemma {:induction false} InterceptAlwaysEnveloped(data: Value, page: Option<string>, limit: Option<string>)
    ensures var r := Intercept(data, page, limit); r.Obj? && Has(r, "status") && Has(r, "message")
  {
  }

  /** Running a response through the interceptor twice is the same as once. */
  lemma {:induction false} InterceptIdempotent(data: Value, page: Option<string>, limit: Option<string>)
    ensures Intercept(Intercept(data, page, limit), page, limit) == Intercept(data, page, limit)
  {
    InterceptAlwaysEnveloped(data, page, limit);
  }

  /** For a paginated service result, the page count covers the total and
      `hasNext` says whether items lie beyond the requested page. */
  lemma {:induction false} ItemsAndTotalMeta(data: Value, page: Option<string>, limit: Option<string>)
    requires CaseOf(data) == ItemsAndTotal && Get(data, "total").Num?
    ensures var p := NumberOr(page, 1);
      var l := NumberOr(limit, 10);
      var meta := Get(Intercept(data, page, limit), "meta");
      && Get(meta, "total_pages") == Num(CeilDiv(Get(data, "total").n, l))
      && (l > 0 ==> Get(meta, "hasNext") == Bool(p * l < Get(data, "total").n))
  {
    var p := NumberOr(page, 1);
    var l := NumberOr(limit, 10);
    if l > 0 {
      HasNextIffMoreItems(p, l, Get(data, "total").n);
    }
  }
}
