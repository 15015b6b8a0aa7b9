/** `AnalyticsRepository`: the SQL text the analytics endpoints send to the
    store, the guard in front of ad-hoc queries, and the shaping of what the
    store answers. The store's answers are parameters. */
module Analytics {
  import opened Text
  import opened Values
  import opened Errors
  import opened ClickHouse

  // ---------------------------------------------------------------------
  // Ad-hoc queries

  const MissingTenantFilter := "Custom query must include app_id filter for security"
  const NotSelect := "Only SELECT queries are allowed for analytics. Destructive operations (CREATE, UPDATE, DELETE, INSERT, DROP, ALTER) are not permitted."
  const ForbiddenKeyword := "Query contains forbidden keywords. Only SELECT queries are allowed for analytics."
  const ForbiddenKeywords: seq<string> := ["create", "update", "delete", "insert", "drop", "alter", "truncate", "replace"]

  /** The filter every ad-hoc query must contain. */
  function TenantFilter(appId: string): (f: string)
    ensures |f| == |appId| + 11 && StartsWith(f, "app_id = '")
    ensures f[10..10 + |appId|] == appId && f[|f| - 1] == '\''
  {
    "app_id = '" + appId + "'"
  }

  /** `forbiddenKeywords.some(k => s.includes(k))` */
  predicate HasForbiddenKeyword(s: string): (b: bool)
    ensures Contains(s, "drop") || Contains(s, "delete") || Contains(s, "truncate") ==> b
    ensures b ==> |s| >= 4
  {
    assert ForbiddenKeywords[4] == "drop" && ForbiddenKeywords[2] == "delete" && ForbiddenKeywords[6] == "truncate";
    assert forall k :: k in ForbiddenKeywords ==> |k| >= 4;
    assert forall k :: k in ForbiddenKeywords && Contains(s, k) ==> |s| >= |k| by {
      forall k | k in ForbiddenKeywords && Contains(s, k) ensures |s| >= |k| {
        var i := ContainsWitness(s, k);
      }
    }
    exists k :: k in ForbiddenKeywords && Contains(s, k)
  }

  /** The three checks of `executeCustomQuery`, in the order the source
      makes them; a query that passes is sent unchanged. */
  function CheckCustomQuery(appId: string, query: string): (r: Result<string>)
    ensures r == Err(PlainError(MissingTenantFilter)) <==> !Contains(Lower(query), TenantFilter(appId))
    ensures r == Err(PlainError(NotSelect)) <==>
      Contains(Lower(query), TenantFilter(appId)) && !StartsWith(Lower(Trim(query)), "select")
    ensures r == Err(PlainError(ForbiddenKeyword)) <==>
      Contains(Lower(query), TenantFilter(appId)) && StartsWith(Lower(Trim(query)), "select") && HasForbiddenKeyword(Lower(Trim(query)))
    ensures r.Ok? <==>
      Contains(Lower(query), TenantFilter(appId)) && StartsWith(Lower(Trim(query)), "select") && !HasForbiddenKeyword(Lower(Trim(query)))
    ensures r.Ok? ==> r.value == query
  {
    if !Contains(Lower(query), TenantFilter(appId)) then Err(PlainError(MissingTenantFilter))
    else
      var trimmed := Lower(Trim(query));
      if !StartsWith(trimmed, "select") then Err(PlainError(NotSelect))
      else if HasForbiddenKeyword(trimmed) then Err(PlainError(ForbiddenKeyword))
      else Ok(query)
  }

  /** The app id is not lowered before the search, so an app id with an
      upper-case letter makes every ad-hoc query fail the first check. */
  lemma {:induction false} UpperCaseAppIdNeverPasses(appId: string, query: string)
    requires HasUpper(appId)
    ensures CheckCustomQuery(appId, query) == Err(PlainError(MissingTenantFilter))
  {
    var k :| 0 <= k < |appId| && IsUpper(appId[k]);
    var f := TenantFilter(appId);
    assert f[10 + k] == appId[k];
    LowerNeverContainsUpper(query, f);
  }

  /** Text containing a string contains each of its prefixes. */
  lemma {:induction false} ContainsPrefixOf(s: string, t: string, p: string)
    requires Contains(s, t) && StartsWith(t, p)
    ensures Contains(s, p)
  {
    var i := ContainsWitness(s, t);
    assert s[i..i + |p|] == t[..|p|];
    ContainsAt(s, p, i);
  }

  /** The keyword check matches inside identifiers: a query that reads the
      `created_at` column is refused, however it is written. */
  lemma {:induction false} CreatedAtRefused(appId: string, query: string)
    requires Contains(Lower(query), TenantFilter(appId)) && StartsWith(Lower(Trim(query)), "select")
    requires Contains(Lower(Trim(query)), "created_at")
    ensures CheckCustomQuery(appId, query) == Err(PlainError(ForbiddenKeyword))
  {
    var trimmed := Lower(Trim(query));
    ContainsPrefixOf(trimmed, "created_at", "create");
    assert ForbiddenKeywords[0] == "create" && Contains(trimmed, ForbiddenKeywords[0]);
    assert HasForbiddenKeyword(trimmed);
    assert CheckCustomQuery(appId, query) == (if HasForbiddenKeyword(trimmed) then Err(PlainError(ForbiddenKeyword)) else Ok(query));
  }

  // ---------------------------------------------------------------------
  // getEvents

  /** `AnalyticsFilter`; dates are given by their ISO text. */
  datatype AnalyticsFilter = AnalyticsFilter(
    appId: string, startDate: Option<string>, endDate: Option<string>,
    userId: Option<string>, deviceId: Option<string>, eventName: Option<string>,
    platform: Option<string>, appVersion: Option<string>,
    limit: Option<int>, offset: Option<int>)

  /** The text before the app id in the `getEvents` template. */
  const EventsSelect := "\n        SELECT \n          id,\n          app_id,\n          event_name,\n          user_id,\n          device_id,\n          session_id,\n          timestamp,\n          properties,\n          platform,\n          version,\n          created_at\n        FROM events \n        WHERE app_id = '"
  const OrderByTimestamp := " ORDER BY timestamp DESC"

  function EventsHead(appId: string): string {
    EventsSelect + appId + "'\n      "
  }

  /** The text one optional condition adds, `lead` being its column and
      operator: nothing when the filter has no value or an empty one. A
      `Date` is always truthy and its ISO text never empty, so a present
      date always counts. */
  function ConditionText(lead: string, value: Option<string>): (t: string)
    ensures !TruthyStr(value) ==> t == ""
  {
    if TruthyStr(value) then lead + value.value + "'" else ""
  }

  /** `if (value) query += <lead><value>'` */
  function AppendCondition(query: string, lead: string, value: Option<string>): (r: string)
    ensures r == query + ConditionText(lead, value)
  {
    if TruthyStr(value) then query + (lead + value.value + "'") else query
  }

  /** The column and operator of each optional condition, in the order
      `getEvents` appends them. */
  const ConditionLeads: seq<string> := [
    " AND timestamp >= '", " AND timestamp <= '", " AND user_id = '", " AND device_id = '",
    " AND event_name = '", " AND platform = '", " AND version = '"]

  /** The filter values, in the same order. */
  function ConditionValues(f: AnalyticsFilter): (vs: seq<Option<string>>)
    ensures |vs| == |ConditionLeads|
  {
    [f.startDate, f.endDate, f.userId, f.deviceId, f.eventName, f.platform, f.appVersion]
  }

  /** The head followed by the first `k` optional conditions. */
  function EventsWhere(appId: string, values: seq<Option<string>>, k: nat): string
    requires k <= |values| == |ConditionLeads|
  {
    if k == 0 then EventsHead(appId)
    else EventsWhere(appId, values, k - 1) + ConditionText(ConditionLeads[k - 1], values[k - 1])
  }

  /** `LIMIT <limit>` for a truthy limit, else nothing. */
  function LimitClause(limit: Option<int>): (r: string)
    ensures r == "" <==> limit.None? || limit.value == 0
    ensures r != "" ==> StartsWith(r, " LIMIT ")
  {
    if limit.Some? && limit.value != 0 then " LIMIT " + IntToString(limit.value) else ""
  }

  /** `OFFSET <offset>`, only for a truthy offset after a truthy limit. */
  function OffsetClause(limit: Option<int>, offset: Option<int>): (r: string)
    ensures r != "" <==> LimitClause(limit) != "" && offset.Some? && offset.value != 0
    ensures r != "" ==> StartsWith(r, " OFFSET ")
  {
    if limit.Some? && limit.value != 0 && offset.Some? && offset.value != 0 then
      " OFFSET " + IntToString(offset.value)
    else ""
  }

  /** The numbers in the paging clauses read back as the limit and offset
      requested. */
  lemma {:induction false} PagingClausesReadBack(limit: int, offset: int)
    requires limit != 0 && offset != 0
    ensures ParseInt(LimitClause(Some(limit))[|" LIMIT "|..]) == Some(limit)
    ensures ParseInt(OffsetClause(Some(limit), Some(offset))[|" OFFSET "|..]) == Some(offset)
  {
    assert LimitClause(Some(limit))[|" LIMIT "|..] == IntToString(limit);
    assert OffsetClause(Some(limit), Some(offset))[|" OFFSET "|..] == IntToString(offset);
    ParseIntOfIntToString(limit);
    ParseIntOfIntToString(offset);
  }

  /** The text `getEvents` sends. */
  function EventsQuery(f: AnalyticsFilter): string {
    EventsWhere(f.appId, ConditionValues(f), |ConditionLeads|) + OrderByTimestamp
    + LimitClause(f.limit) + OffsetClause(f.limit, f.offset)
  }

  /** The query of `getEvents`, built by appending to it as the source
      does: the conditions in the order of `ConditionLeads`, then the order
      clause, then the paging. */
  method BuildEventsQuery(f: AnalyticsFilter) returns (query: string)
    ensures query == EventsQuery(f)
  {
    query := EventsHead(f.appId);
    query := AppendCondition(query, ConditionLeads[0], f.startDate);
    assert query == EventsWhere(f.appId, ConditionValues(f), 1);
    query := AppendCondition(query, ConditionLeads[1], f.endDate);
    assert query == EventsWhere(f.appId, ConditionValues(f), 2);
    query := AppendCondition(query, ConditionLeads[2], f.userId);
    assert query == EventsWhere(f.appId, ConditionValues(f), 3);
    query := AppendCondition(query, ConditionLeads[3], f.deviceId);
    assert query == EventsWhere(f.appId, ConditionValues(f), 4);
    query := AppendCondition(query, ConditionLeads[4], f.eventName);
    assert query == EventsWhere(f.appId, ConditionValues(f), 5);
    query := AppendCondition(query, ConditionLeads[5], f.platform);
    assert query == EventsWhere(f.appId, ConditionValues(f), 6);
    query := AppendCondition(query, ConditionLeads[6], f.appVersion);
    assert query == EventsWhere(f.appId, ConditionValues(f), 7);
    query := query + OrderByTimestamp;
    if f.limit.Some? && f.limit.value != 0 {
      query := query + (" LIMIT " + IntToString(f.limit.value));
      if f.offset.Some? && f.offset.value != 0 {
        query := query + (" OFFSET " + IntToString(f.offset.value));
      }
    }
  }

  /** Conditions only ever add to the head. */
  lemma {:induction false} WhereExtendsHead(appId: string, values: seq<Option<string>>, k: nat)
    requires k <= |values| == |ConditionLeads|
    ensures StartsWith(EventsWhere(appId, values, k), EventsHead(appId))
  {
    if k > 0 {
      WhereExtendsHead(appId, values, k - 1);
      var w := EventsWhere(appId, values, k - 1);
      var h := EventsHead(appId);
      assert (w + ConditionText(ConditionLeads[k - 1], values[k - 1]))[..|h|] == w[..|h|];
    }
  }

  /** The conditions depend on the filter values only through the text each
      adds, so two filters whose values add the same texts give the same
      query. */
  lemma {:induction false} WhereDependsOnTexts(appId: string, v: seq<Option<string>>, w: seq<Option<string>>, k: nat)
    requires k <= |v| == |w| == |ConditionLeads|
    requires forall i :: 0 <= i < k ==> ConditionText(ConditionLeads[i], v[i]) == ConditionText(ConditionLeads[i], w[i])
    ensures EventsWhere(appId, v, k) == EventsWhere(appId, w, k)
  {
    if k > 0 {
      WhereDependsOnTexts(appId, v, w, k - 1);
    }
  }

  /** Each condition that was added stays in the text as later ones are
      added. */
  lemma {:induction false} WhereContainsCondition(appId: string, values: seq<Option<string>>, k: nat, j: nat)
    requires j < k <= |values| == |ConditionLeads|
    ensures Contains(EventsWhere(appId, values, k), ConditionText(ConditionLeads[j], values[j]))
  {
    var prev := EventsWhere(appId, values, k - 1);
    var last := ConditionText(ConditionLeads[k - 1], values[k - 1]);
    var c := ConditionText(ConditionLeads[j], values[j]);
    assert EventsWhere(appId, values, k) == prev + last;
    if j == k - 1 {
      ContainsSuffix(prev, c);
    } else {
      WhereContainsCondition(appId, values, k - 1, j);
      ContainsExtended(prev, last, c);
    }
  }

  /** Every filter value given (and non-empty) is matched in the query:
      `<column> <op> '<value>'` occurs in it. */
  lemma {:induction false} EventsQueryFilters(f: AnalyticsFilter, j: nat)
    requires j < |ConditionLeads|
    ensures TruthyStr(ConditionValues(f)[j]) ==>
      Contains(EventsQuery(f), ConditionLeads[j] + ConditionValues(f)[j].value + "'")
  {
    var vs := ConditionValues(f);
    var c := ConditionText(ConditionLeads[j], vs[j]);
    var w := EventsWhere(f.appId, vs, |ConditionLeads|);
    var wo := w + OrderByTimestamp;
    var wol := wo + LimitClause(f.limit);
    WhereContainsCondition(f.appId, vs, |ConditionLeads|, j);
    ContainsExtended(w, OrderByTimestamp, c);
    ContainsExtended(wo, LimitClause(f.limit), c);
    ContainsExtended(wol, OffsetClause(f.limit, f.offset), c);
  }

  /** Every events query is scoped to its app and ordered newest first: it
      begins with the select list and `WHERE app_id = '<appId>'`, and the
      order clause follows the conditions. */
  lemma {:induction false} EventsQueryShape(f: AnalyticsFilter)
    ensures StartsWith(EventsQuery(f), EventsSelect + f.appId + "'")
    ensures Contains(EventsQuery(f), OrderByTimestamp)
  {
    var w := EventsWhere(f.appId, ConditionValues(f), |ConditionLeads|);
    var wo := w + OrderByTimestamp;
    var wol := wo + LimitClause(f.limit);
    var q := wol + OffsetClause(f.limit, f.offset);
    ContainsSuffix(w, OrderByTimestamp);
    ContainsExtended(wo, LimitClause(f.limit), OrderByTimestamp);
    ContainsExtended(wol, OffsetClause(f.limit, f.offset), OrderByTimestamp);
    var p := EventsSelect + f.appId + "'";
    assert EventsHead(f.appId) == p + "\n      ";
    StartsWithAppend(p, "\n      ");
    WhereExtendsHead(f.appId, ConditionValues(f), |ConditionLeads|);
    StartsWithTrans(w, EventsHead(f.appId), p);
    StartsWithAppend(w, OrderByTimestamp);
    StartsWithTrans(wo, w, p);
    StartsWithAppend(wo, LimitClause(f.limit));
    StartsWithTrans(wol, wo, p);
    StartsWithAppend(wol, OffsetClause(f.limit, f.offset));
    StartsWithTrans(q, wol, p);
  }

  /** An empty filter value is the same as an absent one. */
  lemma {:induction false} EmptyFilterValueIgnored(f: AnalyticsFilter)
    ensures EventsQuery(f.(userId := Some(""))) == EventsQuery(f.(userId := None))
    ensures EventsQuery(f.(eventName := Some(""))) == EventsQuery(f.(eventName := None))
    ensures EventsQuery(f.(platform := Some(""))) == EventsQuery(f.(platform := None))
  {
    var n := |ConditionLeads|;
    WhereDependsOnTexts(f.appId, ConditionValues(f.(userId := Some(""))), ConditionValues(f.(userId := None)), n);
    WhereDependsOnTexts(f.appId, ConditionValues(f.(eventName := Some(""))), ConditionValues(f.(eventName := None)), n);
    WhereDependsOnTexts(f.appId, ConditionValues(f.(platform := Some(""))), ConditionValues(f.(platform := None)), n);
  }

  /** A zero limit leaves out `LIMIT`, and with it any `OFFSET`; an offset
      without a limit is ignored. */
  lemma {:induction false} ZeroLimitOmitsPaging(f: AnalyticsFilter, offset: Option<int>)
    ensures EventsQuery(f.(limit := Some(0), offset := offset)) == EventsQuery(f.(limit := None, offset := None))
    ensures EventsQuery(f.(limit := None, offset := offset)) == EventsQuery(f.(limit := None, offset := None))
  {
  }

  /** Appending two two-part clauses appends their four parts. */
  lemma {:induction false} AppendPairs(a: string, b: string, c: string, d: string, e: string)
    ensures a + (b + c) + (d + e) == a + b + c + d + e
  {
  }

  /** With a truthy limit the query is the unpaged one followed by
      `LIMIT <limit>`, then `OFFSET <offset>` when the offset is truthy too. */
  lemma {:induction false} PagingWithLimit(f: AnalyticsFilter, limit: int, offset: Option<int>)
    requires limit != 0
    ensures offset.Some? && offset.value != 0 ==>
      EventsQuery(f.(limit := Some(limit), offset := offset))
      == EventsQuery(f.(limit := None, offset := None)) + " LIMIT " + IntToString(limit) + " OFFSET " + IntToString(offset.value)
    ensures !(offset.Some? && offset.value != 0) ==>
      EventsQuery(f.(limit := Some(limit), offset := offset))
      == EventsQuery(f.(limit := None, offset := None)) + " LIMIT " + IntToString(limit)
  {
    var paged := f.(limit := Some(limit), offset := offset);
    var plain := f.(limit := None, offset := None);
    assert ConditionValues(paged) == ConditionValues(plain);
    var base := EventsWhere(f.appId, ConditionValues(plain), |ConditionLeads|) + OrderByTimestamp;
    assert EventsQuery(plain) == base + LimitClause(None) + OffsetClause(None, None);
    assert LimitClause(None) == "" && OffsetClause(None, None) == "";
    assert EventsQuery(plain) == base;
    var l := " LIMIT " + IntToString(limit);
    assert LimitClause(Some(limit)) == l;
    assert EventsQuery(paged) == base + l + OffsetClause(Some(limit), offset);
    if offset.Some? && offset.value != 0 {
      assert OffsetClause(Some(limit), offset) == " OFFSET " + IntToString(offset.value);
      AppendPairs(base, " LIMIT ", IntToString(limit), " OFFSET ", IntToString(offset.value));
    } else {
      assert OffsetClause(Some(limit), offset) == "";
      assert base + l + "" == base + l;
    }
  }

  // ---------------------------------------------------------------------
  // Metrics

  /** `WHERE app_id = '<appId>'` */
  function BaseWhere(appId: string): string {
    "WHERE app_id = '" + appId + "'"
  }

  /** The date range of the metrics queries: only when both ends are given. */
  function DateFilter(startDate: Option<string>, endDate: Option<string>): (r: string)
    ensures startDate.None? || endDate.None? ==> r == ""
    ensures startDate.Some? && endDate.Some? ==>
      r == "AND timestamp >= '" + startDate.value + "' AND timestamp <= '" + endDate.value + "'"
  {
    if startDate.Some? && endDate.Some? then
      "AND timestamp >= '" + startDate.value + "' AND timestamp <= '" + endDate.value + "'"
    else ""
  }

  /** The shape shared by the metrics, user and event queries: a select
      list, `FROM events`, the scope and date range, then a tail of extra
      conditions, grouping and ordering. */
  function ScopedQuery(select: string, scope: string, dateFilter: string, tail: string): string {
    "\n        SELECT " + select + "\n        FROM events \n        " + scope + " " + dateFilter + tail
  }

  /** `SELECT <column>, count() as count ... GROUP BY <column> ORDER BY count DESC` */
  function BreakdownSelect(column: string): string {
    "\n          " + column + ",\n          count() as count"
  }

  function BreakdownTail(column: string): string {
    "\n        GROUP BY " + column + "\n        ORDER BY count DESC\n      "
  }

  function BreakdownQuery(column: string, scope: string, dateFilter: string): string {
    ScopedQuery(BreakdownSelect(column), scope, dateFilter, BreakdownTail(column))
  }

  // The select lists and tails of the other templates.
  const TotalSelect := "count() as total"
  const PlainTail := "\n      "
  const UsersSelect := "uniqExact(user_id) as unique_users"
  const UsersTail := "\n        AND user_id IS NOT NULL\n      "
  const DevicesSelect := "uniqExact(device_id) as unique_devices"
  const DevicesTail := "\n        AND device_id IS NOT NULL\n      "
  const SeriesSelect := "\n          toDate(timestamp) as date,\n          count() as count"
  const SeriesTail := "\n        GROUP BY date\n        ORDER BY date\n      "
  const UserSelect := "\n          user_id,\n          device_id,\n          count() as total_events,"
    + "\n          min(timestamp) as first_seen,\n          max(timestamp) as last_seen,"
    + "\n          uniqExact(session_id) as session_count,\n          platform,\n          version"
  const UserTail := "\n        GROUP BY user_id, device_id, platform, version\n      "
  const EventSelect := "\n          event_name,\n          count() as total_occurrences,"
    + "\n          uniqExact(user_id) as unique_users,\n          uniqExact(device_id) as unique_devices"
  const EventTail := "\n        GROUP BY event_name\n      "
  const HoursSelect := "\n          toHour(timestamp) as hour,\n          count() as count"
  const HoursTail := "\n        GROUP BY hour\n        ORDER BY hour\n      "

  /** The seven queries `getAnalyticsMetrics` sends, in the order of its
      `Promise.all`: total, unique users, unique devices, the event, platform
      and version breakdowns, and the daily series. */
  function MetricsQueries(f: AnalyticsFilter): (qs: seq<string>)
    ensures |qs| == 7
  {
    var scope := BaseWhere(f.appId);
    var dates := DateFilter(f.startDate, f.endDate);
    [ScopedQuery(TotalSelect, scope, dates, PlainTail),
     ScopedQuery(UsersSelect, scope, dates, UsersTail),
     ScopedQuery(DevicesSelect, scope, dates, DevicesTail),
     BreakdownQuery("event_name", scope, dates),
     BreakdownQuery("platform", scope, dates),
     BreakdownQuery("version", scope, dates),
     ScopedQuery(SeriesSelect, scope, dates, SeriesTail)]
  }

  /** `WHERE app_id = '<appId>' AND user_id = '<userId>'` */
  function UserScope(appId: string, userId: string): string {
    BaseWhere(appId) + " AND user_id = '" + userId + "'"
  }

  /** `WHERE app_id = '<appId>' AND event_name = '<eventName>'` */
  function EventScope(appId: string, eventName: string): string {
    BaseWhere(appId) + " AND event_name = '" + eventName + "'"
  }

  /** The grouped query of `getUserAnalytics`. */
  function UserQuery(appId: string, userId: string, dates: string): string {
    ScopedQuery(UserSelect, UserScope(appId, userId), dates, UserTail)
  }

  /** The grouped query of `getEventAnalytics`. */
  function EventQuery(appId: string, eventName: string, dates: string): string {
    ScopedQuery(EventSelect, EventScope(appId, eventName), dates, EventTail)
  }

  /** The per-hour query of `getEventAnalytics`. */
  function HoursQuery(appId: string, eventName: string, dates: string): string {
    ScopedQuery(HoursSelect, EventScope(appId, eventName), dates, HoursTail)
  }

  /** Every templated query carries its scope. */
  lemma {:induction false} ScopedQueryHasScope(select: string, scope: string, dateFilter: string, tail: string)
    ensures Contains(ScopedQuery(select, scope, dateFilter, tail), scope)
  {
    var a := "\n        SELECT " + select + "\n        FROM events \n        ";
    ContainsSuffix(a, scope);
    ContainsExtended(a + scope, " ", scope);
    ContainsExtended(a + scope + " ", dateFilter, scope);
    ContainsExtended(a + scope + " " + dateFilter, tail, scope);
  }

  /** A user or event scope narrows the app scope. */
  lemma {:induction false} NarrowedScopes(appId: string, userId: string, eventName: string)
    ensures StartsWith(UserScope(appId, userId), BaseWhere(appId))
    ensures StartsWith(EventScope(appId, eventName), BaseWhere(appId))
  {
    var base := BaseWhere(appId);
    assert UserScope(appId, userId)[..|base|] == base;
    assert EventScope(appId, eventName)[..|base|] == base;
  }

  /** Every query of the metrics report contains the app filter
      `WHERE app_id = '<appId>'`. The app id is spliced in unescaped, so
      this is not a proof that the query reads only that app's rows. */
  lemma {:induction false} MetricsQueriesScoped(f: AnalyticsFilter, i: nat)
    requires i < 7
    ensures Contains(MetricsQueries(f)[i], BaseWhere(f.appId))
  {
    var base := BaseWhere(f.appId);
    var dates := DateFilter(f.startDate, f.endDate);
    if i == 0 {
      ScopedQueryHasScope(TotalSelect, base, dates, PlainTail);
    } else if i == 1 {
      ScopedQueryHasScope(UsersSelect, base, dates, UsersTail);
    } else if i == 2 {
      ScopedQueryHasScope(DevicesSelect, base, dates, DevicesTail);
    } else if i == 3 {
      ScopedQueryHasScope(BreakdownSelect("event_name"), base, dates, BreakdownTail("event_name"));
    } else if i == 4 {
      ScopedQueryHasScope(BreakdownSelect("platform"), base, dates, BreakdownTail("platform"));
    } else if i == 5 {
      ScopedQueryHasScope(BreakdownSelect("version"), base, dates, BreakdownTail("version"));
    } else {
      ScopedQueryHasScope(SeriesSelect, base, dates, SeriesTail);
    }
  }

  /** So is every query of the user and event reports. */
  lemma {:induction false} ReportQueriesScoped(appId: string, userId: string, eventName: string, dates: string)
    ensures Contains(UserQuery(appId, userId, dates), BaseWhere(appId))
    ensures Contains(BreakdownQuery("event_name", UserScope(appId, userId), dates), BaseWhere(appId))
    ensures Contains(EventQuery(appId, eventName, dates), BaseWhere(appId))
    ensures Contains(HoursQuery(appId, eventName, dates), BaseWhere(appId))
  {
    var base := BaseWhere(appId);
    var us := UserScope(appId, userId);
    var es := EventScope(appId, eventName);
    NarrowedScopes(appId, userId, eventName);
    ScopedQueryHasScope(UserSelect, us, dates, UserTail);
    ContainsThroughPrefix(UserQuery(appId, userId, dates), us, base);
    ScopedQueryHasScope(BreakdownSelect("event_name"), us, dates, BreakdownTail("event_name"));
    ContainsThroughPrefix(BreakdownQuery("event_name", us, dates), us, base);
    ScopedQueryHasScope(EventSelect, es, dates, EventTail);
    ContainsThroughPrefix(EventQuery(appId, eventName, dates), es, base);
    ScopedQueryHasScope(HoursSelect, es, dates, HoursTail);
    ContainsThroughPrefix(HoursQuery(appId, eventName, dates), es, base);
  }

  /** `Array.isArray(result) ? result : []` */
  function RowsOf(result: Value): (rows: seq<Value>)
    ensures !result.Arr? ==> rows == []
  {
    if result.Arr? then result.elems else []
  }

  /** `rows[0]?.<field> || 0`: the first row's value, 0 when there is no
      row or the value is falsy. */
  function FirstOrZero(rows: seq<Value>, field: string): (v: Value)
    ensures Truthy(v) || v == Num(0)
    ensures rows == [] ==> v == Num(0)
    ensures rows != [] && Truthy(Get(rows[0], field)) ==> v == Get(rows[0], field)
  {
    if rows == [] then Num(0) else Or(Get(rows[0], field), Num(0))
  }

  /** `String(v)`: the property key a value becomes. */
  function PropertyKey(v: Value): (s: string)
    ensures v.Num? ==> ParseInt(s) == Some(v.n)
    ensures v.Str? ==> s == v.s
    decreases v, 1
  {
    match v
    case Undefined => "undefined"
    case Null => "null"
    case Bool(b) => if b then "true" else "false"
    case Num(n) => ParseIntOfIntToString(n); IntToString(n)
    case NaN => "NaN"
    case Str(s) => s
    case Arr(_) => JoinedKey(v, 0)
    case Obj(_) => "[object Object]"
  }

  /** `Array.prototype.join(",")`, where `null` and `undefined` are empty. */
  function JoinedKey(v: Value, i: nat): string
    requires v.Arr? && i <= |v.elems|
    decreases v, 0, |v.elems| - i
  {
    if i == |v.elems| then ""
    else
      var e := v.elems[i];
      assert e in v.elems;
      (if i > 0 then "," else "") + (if e.Null? || e.Undefined? then "" else PropertyKey(e)) + JoinedKey(v, i + 1)
  }

  /** The object the breakdown `reduce` builds: each row sets the key its
      `field` gives to its `count`, a later row overwriting an earlier one. */
  function BreakdownOf(rows: seq<Value>, field: string): map<string, Value> {
    if rows == [] then map[]
    else
      var last := rows[|rows| - 1];
      BreakdownOf(rows[..|rows| - 1], field)[PropertyKey(Get(last, field)) := Get(last, "count")]
  }

  /** The breakdown has a key exactly for each key some row gives. */
  lemma {:induction false} BreakdownKeys(rows: seq<Value>, field: string)
    ensures BreakdownOf(rows, field).Keys == set i | 0 <= i < |rows| :: PropertyKey(Get(rows[i], field))
  {
    if rows != [] {
      var init := rows[..|rows| - 1];
      BreakdownKeys(init, field);
      var keys := set i | 0 <= i < |rows| :: PropertyKey(Get(rows[i], field));
      var initKeys := set i | 0 <= i < |init| :: PropertyKey(Get(init[i], field));
      assert keys == initKeys + {PropertyKey(Get(rows[|rows| - 1], field))} by {
        forall k | k in keys ensures k in initKeys + {PropertyKey(Get(rows[|rows| - 1], field))} {
          var i :| 0 <= i < |rows| && k == PropertyKey(Get(rows[i], field));
          if i < |init| {
            assert rows[i] == init[i];
          }
        }
        forall k | k in initKeys ensures k in keys {
          var i :| 0 <= i < |init| && k == PropertyKey(Get(init[i], field));
          assert rows[i] == init[i];
        }
      }
    }
  }

  /** A key holds the count of the last row that gives it. */
  lemma {:induction false} BreakdownLastRowWins(rows: seq<Value>, field: string, i: nat)
    requires i < |rows|
    requires forall j :: i < j < |rows| ==> PropertyKey(Get(rows[j], field)) != PropertyKey(Get(rows[i], field))
    ensures PropertyKey(Get(rows[i], field)) in BreakdownOf(rows, field)
    ensures BreakdownOf(rows, field)[PropertyKey(Get(rows[i], field))] == Get(rows[i], "count")
  {
    if i < |rows| - 1 {
      var init := rows[..|rows| - 1];
      assert init[i] == rows[i];
      assert forall j :: i < j < |init| ==> init[j] == rows[j];
      BreakdownLastRowWins(init, field, i);
    }
  }

  /** The `reduce` loop of a breakdown. */
  method Breakdown(rows: seq<Value>, field: string) returns (acc: map<string, Value>)
    ensures acc == BreakdownOf(rows, field)
  {
    acc := map[];
    var k := 0;
    while k < |rows|
      invariant 0 <= k <= |rows|
      invariant acc == BreakdownOf(rows[..k], field)
    {
      assert rows[..k + 1][..k] == rows[..k];
      acc := acc[PropertyKey(Get(rows[k], field)) := Get(rows[k], "count")];
      k := k + 1;
    }
    assert rows[..k] == rows;
  }

  datatype Metrics = Metrics(
    totalEvents: Value, uniqueUsers: Value, uniqueDevices: Value,
    eventBreakdown: map<string, Value>, platformBreakdown: map<string, Value>, versionBreakdown: map<string, Value>,
    timeSeries: seq<(Value, Value)>)

  /** What `getAnalyticsMetrics` builds from the answers to its seven
      queries: totals default to 0, breakdowns are keyed by their column. */
  function MetricsOf(total: Value, users: Value, devices: Value, events: Value, platforms: Value,
                     versions: Value, series: Value): (m: Metrics)
    ensures m.totalEvents == FirstOrZero(RowsOf(total), "total")
    ensures m.uniqueUsers == FirstOrZero(RowsOf(users), "unique_users")
    ensures m.uniqueDevices == FirstOrZero(RowsOf(devices), "unique_devices")
    ensures m.eventBreakdown == BreakdownOf(RowsOf(events), "event_name")
    ensures m.platformBreakdown == BreakdownOf(RowsOf(platforms), "platform")
    ensures m.versionBreakdown == BreakdownOf(RowsOf(versions), "version")
    ensures |m.timeSeries| == |RowsOf(series)|
    ensures forall i :: 0 <= i < |m.timeSeries| ==>
      m.timeSeries[i] == (Get(RowsOf(series)[i], "date"), Get(RowsOf(series)[i], "count"))
  {
    var s := RowsOf(series);
    Metrics(FirstOrZero(RowsOf(total), "total"), FirstOrZero(RowsOf(users), "unique_users"),
            FirstOrZero(RowsOf(devices), "unique_devices"),
            BreakdownOf(RowsOf(events), "event_name"), BreakdownOf(RowsOf(platforms), "platform"),
            BreakdownOf(RowsOf(versions), "version"),
            seq(|s|, i requires 0 <= i < |s| => (Get(s[i], "date"), Get(s[i], "count"))))
  }

  /** A metrics request over an app with no matching events reports zero
      totals and empty breakdowns. */
  lemma {:induction false} NoRowsGiveZeroMetrics(empty: Value)
    requires RowsOf(empty) == []
    ensures var m := MetricsOf(empty, empty, empty, empty, empty, empty, empty);
      m.totalEvents == Num(0) && m.uniqueUsers == Num(0) && m.uniqueDevices == Num(0)
      && m.eventBreakdown == map[] && m.timeSeries == []
  {
  }

  // ---------------------------------------------------------------------
  // Per-user and per-event analytics

  function NoEventsForUser(userId: string, appId: string): string {
    "No events found for user " + userId + " in app " + appId
  }

  function NoEventsForEvent(eventName: string, appId: string): string {
    "No events found for event " + eventName + " in app " + appId
  }

  datatype UserAnalytics = UserAnalytics(
    userId: Value, deviceId: Value, totalEvents: Value, sessionCount: Value,
    eventBreakdown: map<string, Value>, platform: Value, appVersion: Value)

  /** `getUserAnalytics` from the answers to its two queries: an error when
      the grouped query has no row, otherwise the first row's figures. */
  function UserAnalyticsOf(appId: string, userId: string, grouped: Value, breakdown: Value): (r: Result<UserAnalytics>)
    ensures r.Err? <==> RowsOf(grouped) == []
    ensures r.Err? ==> r.error == PlainError(NoEventsForUser(userId, appId))
    ensures r.Ok? ==> (r.value.totalEvents == Get(RowsOf(grouped)[0], "total_events")
      && r.value.eventBreakdown == BreakdownOf(RowsOf(breakdown), "event_name"))
    ensures r.Ok? ==> (r.value.userId == Get(RowsOf(grouped)[0], "user_id")
      && r.value.deviceId == Get(RowsOf(grouped)[0], "device_id")
      && r.value.sessionCount == Get(RowsOf(grouped)[0], "session_count")
      && r.value.platform == Get(RowsOf(grouped)[0], "platform")
      && r.value.appVersion == Get(RowsOf(grouped)[0], "version"))
  {
    var rows := RowsOf(grouped);
    if |rows| == 0 then Err(PlainError(NoEventsForUser(userId, appId)))
    else
      var row := rows[0];
      Ok(UserAnalytics(Get(row, "user_id"), Get(row, "device_id"), Get(row, "total_events"),
                       Get(row, "session_count"), BreakdownOf(RowsOf(breakdown), "event_name"),
                       Get(row, "platform"), Get(row, "version")))
  }

  /** The `TypeError` of `.map` on an answer that is not an array: a read of
      `null` or `undefined`, or a call of a missing method on anything else. */
  const MapOnNonArray := "timeDistribution.map is not a function"

  function MapFailure(v: Value): string
    requires !v.Arr?
  {
    if v.Null? || v.Undefined? then ReadOfNothing(v, "map") else MapOnNonArray
  }

  datatype EventAnalytics = EventAnalytics(
    eventName: Value, totalOccurrences: Value, uniqueUsers: Value, uniqueDevices: Value,
    timeDistribution: seq<(Value, Value)>, userRetention: int)

  /** `getEventAnalytics` from the answers to its two queries. */
  function EventAnalyticsOf(appId: string, eventName: string, grouped: Value, hours: seq<Value>): (r: Result<EventAnalytics>)
    ensures r.Err? <==> RowsOf(grouped) == []
    ensures r.Err? ==> r.error == PlainError(NoEventsForEvent(eventName, appId))
    ensures r.Ok? ==> (r.value.totalOccurrences == Get(RowsOf(grouped)[0], "total_occurrences")
      && |r.value.timeDistribution| == |hours| && r.value.userRetention == 0)
    ensures r.Ok? ==> (r.value.eventName == Get(RowsOf(grouped)[0], "event_name")
      && r.value.uniqueUsers == Get(RowsOf(grouped)[0], "unique_users")
      && r.value.uniqueDevices == Get(RowsOf(grouped)[0], "unique_devices"))
    ensures r.Ok? ==> forall i :: 0 <= i < |hours| ==>
      r.value.timeDistribution[i] == (Get(hours[i], "hour"), Get(hours[i], "count"))
  {
    var rows := RowsOf(grouped);
    if |rows| == 0 then Err(PlainError(NoEventsForEvent(eventName, appId)))
    else
      var row := rows[0];
      Ok(EventAnalytics(Get(row, "event_name"), Get(row, "total_occurrences"), Get(row, "unique_users"),
                        Get(row, "unique_devices"),
                        seq(|hours|, i requires 0 <= i < |hours| => (Get(hours[i], "hour"), Get(hours[i], "count"))), 0))
  }

  // ---------------------------------------------------------------------
  // The repository

  class AnalyticsRepository {
    const store: Store

    constructor (store: Store)
      ensures this.store == store
    {
      this.store := store;
    }

    /** `getEvents`: one query; a non-array answer reads as no rows. */
    method GetEvents(filter: AnalyticsFilter, answer: Value, serverOk: bool) returns (r: Result<seq<Value>>)
      requires store.Valid()
      modifies store
      ensures store.Valid() && store.tables == old(store.tables) && store.databases == old(store.databases)
      ensures store.statements == old(store.statements) + [EventsQuery(filter)]
      ensures r.Ok? <==> serverOk
      ensures r.Ok? ==> r.value == RowsOf(answer)
      ensures r.Err? ==> r.error == PlainError(ServerError)
    {
      var query := BuildEventsQuery(filter);
      var result := store.ExecuteQuery(query, answer, serverOk);
      if result.Err? {
        return Err(result.error);
      }
      r := Ok(RowsOf(result.value));
    }

    /** `getAnalyticsMetrics`: the seven queries all go out together; any
        failure fails the report, otherwise the report is built from the
        seven answers in order. */
    method GetAnalyticsMetrics(filter: AnalyticsFilter, answers: seq<Value>, oks: seq<bool>) returns (r: Result<Metrics>)
      requires store.Valid() && |answers| == 7 && |oks| == 7
      modifies store
      ensures store.Valid() && store.tables == old(store.tables) && store.databases == old(store.databases)
      ensures store.statements == old(store.statements) + MetricsQueries(filter)
      ensures r.Ok? <==> forall i :: 0 <= i < 7 ==> oks[i]
      ensures r.Ok? ==> r.value == MetricsOf(answers[0], answers[1], answers[2], answers[3], answers[4], answers[5], answers[6])
      ensures r.Err? ==> r.error == PlainError(ServerError)
    {
      var queries := MetricsQueries(filter);
      var failed := false;
      var i := 0;
      while i < 7
        invariant 0 <= i <= 7
        invariant store.Valid() && store.tables == old(store.tables) && store.databases == old(store.databases)
        invariant store.statements == old(store.statements) + queries[..i]
        invariant failed <==> exists j :: 0 <= j < i && !oks[j]
      {
        var answer := store.ExecuteQuery(queries[i], answers[i], oks[i]);
        failed := failed || answer.Err?;
        assert queries[..i + 1] == queries[..i] + [queries[i]];
        i := i + 1;
      }
      assert queries[..i] == queries;
      if failed {
        return Err(PlainError(ServerError));
      }
      r := Ok(MetricsOf(answers[0], answers[1], answers[2], answers[3], answers[4], answers[5], answers[6]));
    }

    /** `getUserAnalytics`: the grouped query first; with no row it fails
        without sending the breakdown query. */
    method GetUserAnalytics(appId: string, userId: string, startDate: Option<string>, endDate: Option<string>,
                            grouped: Value, groupedOk: bool, breakdown: Value, breakdownOk: bool)
      returns (r: Result<UserAnalytics>)
      requires store.Valid()
      modifies store
      ensures store.Valid() && store.tables == old(store.tables) && store.databases == old(store.databases)
      ensures var q := UserQuery(appId, userId, DateFilter(startDate, endDate));
        if !groupedOk || RowsOf(grouped) == [] then store.statements == old(store.statements) + [q]
        else store.statements == old(store.statements) + [q, BreakdownQuery("event_name", UserScope(appId, userId), DateFilter(startDate, endDate))]
      ensures !groupedOk || (RowsOf(grouped) != [] && !breakdownOk) ==> r == Err(PlainError(ServerError))
      ensures groupedOk && (RowsOf(grouped) == [] || breakdownOk) ==> r == UserAnalyticsOf(appId, userId, grouped, breakdown)
    {
      var dates := DateFilter(startDate, endDate);
      var result := store.ExecuteQuery(UserQuery(appId, userId, dates), grouped, groupedOk);
      if result.Err? {
        return Err(result.error);
      }
      if RowsOf(result.value) == [] {
        return Err(PlainError(NoEventsForUser(userId, appId)));
      }
      var counts := store.ExecuteQuery(BreakdownQuery("event_name", UserScope(appId, userId), dates), breakdown, breakdownOk);
      if counts.Err? {
        return Err(counts.error);
      }
      r := UserAnalyticsOf(appId, userId, result.value, counts.value);
    }

    /** `getEventAnalytics`: the grouped query first; with no row it fails
        without sending the per-hour query, whose answer must be an array. */
    method GetEventAnalytics(appId: string, eventName: string, startDate: Option<string>, endDate: Option<string>,
                             grouped: Value, groupedOk: bool, hours: Value, hoursOk: bool)
      returns (r: Result<EventAnalytics>)
      requires store.Valid()
      modifies store
      ensures store.Valid() && store.tables == old(store.tables) && store.databases == old(store.databases)
      ensures var dates := DateFilter(startDate, endDate);
        if !groupedOk || RowsOf(grouped) == [] then store.statements == old(store.statements) + [EventQuery(appId, eventName, dates)]
        else store.statements == old(store.statements) + [EventQuery(appId, eventName, dates), HoursQuery(appId, eventName, dates)]
      ensures !groupedOk || (RowsOf(grouped) != [] && !hoursOk) ==> r == Err(PlainError(ServerError))
      ensures groupedOk && RowsOf(grouped) == [] ==> r == Err(PlainError(NoEventsForEvent(eventName, appId)))
      ensures groupedOk && RowsOf(grouped) != [] && hoursOk && !hours.Arr? ==> r == Err(PlainError(MapFailure(hours)))
      ensures groupedOk && RowsOf(grouped) != [] && hoursOk && hours.Arr? ==> r == EventAnalyticsOf(appId, eventName, grouped, hours.elems)
    {
      var dates := DateFilter(startDate, endDate);
      var result := store.ExecuteQuery(EventQuery(appId, eventName, dates), grouped, groupedOk);
      if result.Err? {
        return Err(result.error);
      }
      if RowsOf(result.value) == [] {
        return Err(PlainError(NoEventsForEvent(eventName, appId)));
      }
      var distribution := store.ExecuteQuery(HoursQuery(appId, eventName, dates), hours, hoursOk);
      if distribution.Err? {
        return Err(distribution.error);
      }
      if !distribution.value.Arr? {
        return Err(PlainError(MapFailure(distribution.value)));
      }
      r := EventAnalyticsOf(appId, eventName, result.value, distribution.value.elems);
    }

    /** `executeCustomQuery`: the store sees the query only when all three
        checks pass, and then sees it exactly as given. */
    method ExecuteCustomQuery(appId: string, query: string, answer: Value, serverOk: bool) returns (r: Result<Value>)
      requires store.Valid()
      modifies store
      ensures store.Valid() && store.tables == old(store.tables) && store.databases == old(store.databases)
      ensures CheckCustomQuery(appId, query).Err? ==> r == Err(CheckCustomQuery(appId, query).error)
      ensures CheckCustomQuery(appId, query).Err? ==> store.statements == old(store.statements)
      ensures CheckCustomQuery(appId, query).Ok? ==> store.statements == old(store.statements) + [query]
      ensures CheckCustomQuery(appId, query).Ok? ==> (r.Ok? <==> serverOk) && (r.Ok? ==> r.value == answer)
      ensures CheckCustomQuery(appId, query).Ok? && r.Err? ==> r.error == PlainError(ServerError)
    {
      var checked := CheckCustomQuery(appId, query);
      if checked.Err? {
        return Err(checked.error);
      }
      r := store.ExecuteQuery(query, answer, serverOk);
    }
  }
}
