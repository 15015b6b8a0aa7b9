/** `PaginatedRepository`: the search, filter, sort and paging clauses it
    adds to a query builder (`findPaginated`, `buildSearchQuery`,
    `buildSortQuery`, `buildWhereConditions`) and the find options it
    prepares instead when no query builder is needed
    (`findPaginatedWithOptions`). The database is not modelled: the rows
    and the count it would return are parameters. */
module PagedRepository {
  import opened Text
  import opened Values
  import opened Pagination
  import opened PaginationInterceptor
  import Phone

  // ---------------------------------------------------------------------
  // Search parameters

  const PhoneField := "phoneNumber"

  /** The LIKE pattern that matches every text containing `s`. */
  function Wildcard(s: string): (p: string)
    ensures |p| == |s| + 2 && p[0] == '%' && p[|p| - 1] == '%' && p[1..|p| - 1] == s
  {
    "%" + s + "%"
  }

  /** The patterns bound to `:searchWithCountryCode` and
      `:searchWithoutCountryCode`: a local number (`0…`) is also searched
      under the country code, an international one (`255…`) also in its
      local form, and anything else under both prefixes. */
  function PhoneVariants(search: string): (r: (string, string)) {
    if StartsWith(search, "0") then (Wildcard("255" + search[1..]), Wildcard(search[1..]))
    else if StartsWith(search, "255") then (Wildcard(search), Wildcard("0" + search[3..]))
    else (Wildcard("255" + search), Wildcard("0" + search))
  }

  /** The first variant always searches the international form; the second
      searches the local form, except for a local search, whose second
      variant drops the leading zero. */
  lemma {:induction false} PhoneVariantForms(search: string)
    ensures StartsWith(PhoneVariants(search).0, "%255")
    ensures StartsWith(search, "0") ==> PhoneVariants(search).1 == Wildcard(search[1..])
    ensures !StartsWith(search, "0") ==> StartsWith(PhoneVariants(search).1, "%0")
  {
    var r := PhoneVariants(search);
    if StartsWith(search, "0") {
      assert r.0 == "%255" + (search[1..] + "%");
    } else if StartsWith(search, "255") {
      assert search[..3] == "255";
      assert r.0[..4] == "%" + search[..3];
      assert r.1 == "%0" + (search[3..] + "%");
    } else {
      assert r.0 == "%255" + (search + "%");
      assert r.1 == "%0" + (search + "%");
    }
  }

  /** The local and the international spelling of the same number search
      the same international pattern. */
  lemma {:induction false} LocalAndInternationalMeet(rest: string)
    ensures PhoneVariants("0" + rest).0 == PhoneVariants("255" + rest).0
  {
    assert ("0" + rest)[1..] == rest;
    assert ("255" + rest)[..1] == "2";
    assert ("255" + rest)[..3] == "255";
  }

  /** For a digit string with a local, international or bare mobile prefix,
      the first variant is the number in the standard format of the phone
      utilities. */
  lemma {:induction false} StandardFormSearched(search: string)
    requires AllDigits(search)
    requires StartsWith(search, "0") || StartsWith(search, "255") || StartsWith(search, "7")
    ensures PhoneVariants(search).0 == Wildcard(Phone.ConvertToStandardFormat(search))
  {
    assert DigitsOnly(search) == search;
  }

  /** The parameters bound with the search clause: the generic pattern,
      and the two phone patterns when a searchable field is the phone
      number. */
  function SearchParams(search: string, fields: seq<string>): (ps: seq<(string, Value)>)
    ensures |ps| >= 1 && ps[0] == ("search", Str(Wildcard(search)))
    ensures |ps| == 3 <==> PhoneField in fields
    ensures |ps| == 3 ==> (ps[1] == ("searchWithCountryCode", Str(PhoneVariants(search).0))
      && ps[2] == ("searchWithoutCountryCode", Str(PhoneVariants(search).1)))
    ensures |ps| == 1 || |ps| == 3
  {
    var generic := [("search", Str(Wildcard(search)))];
    if PhoneField in fields then
      var (withCode, withoutCode) := PhoneVariants(search);
      generic + [("searchWithCountryCode", Str(withCode)), ("searchWithoutCountryCode", Str(withoutCode))]
    else generic
  }

  // ---------------------------------------------------------------------
  // The search clause

  /** The comparison every searchable field gets. */
  function SearchLike(field: string): string {
    "LOWER(entity." + field + ") LIKE LOWER(:search)"
  }

  /** The condition for one searchable field; the phone number is also
      compared with the two phone patterns. `pad` is the indentation of the
      template's closing parenthesis, which differs between the copies. */
  function FieldCondition(field: string, pad: string): string {
    if field == PhoneField then
      "(\n" + pad + "  " + SearchLike(field)
      + (" OR \n" + pad + "  LOWER(entity." + field + ") LIKE LOWER(:searchWithCountryCode) OR\n"
         + pad + "  LOWER(entity." + field + ") LIKE LOWER(:searchWithoutCountryCode)\n" + pad + ")")
    else SearchLike(field)
  }

  /** Every field's condition compares that field with the search pattern. */
  lemma {:induction false} FieldConditionSearches(field: string, pad: string)
    ensures Contains(FieldCondition(field, pad), SearchLike(field))
  {
    var like := SearchLike(field);
    if field == PhoneField {
      var head := "(\n" + pad + "  ";
      var tail := " OR \n" + pad + "  LOWER(entity." + field + ") LIKE LOWER(:searchWithCountryCode) OR\n"
         + pad + "  LOWER(entity." + field + ") LIKE LOWER(:searchWithoutCountryCode)\n" + pad + ")";
      assert FieldCondition(field, pad) == head + like + tail;
      ContainsSuffix(head, like);
      ContainsExtended(head + like, tail, like);
    } else {
      ContainsAt(like, like, 0);
    }
  }

  function FieldConditions(fields: seq<string>, pad: string): (cs: seq<string>)
    ensures |cs| == |fields|
    ensures forall i :: 0 <= i < |fields| ==> cs[i] == FieldCondition(fields[i], pad)
  {
    seq(|fields|, i requires 0 <= i < |fields| => FieldCondition(fields[i], pad))
  }

  /** `parts.join(sep)` */
  function Join(parts: seq<string>, sep: string): string
    decreases |parts|
  {
    if parts == [] then ""
    else if |parts| == 1 then parts[0]
    else Join(parts[..|parts| - 1], sep) + sep + parts[|parts| - 1]
  }

  /** Every part occurs in the joined text. */
  lemma {:induction false} JoinContainsParts(parts: seq<string>, sep: string, i: nat)
    requires i < |parts|
    ensures Contains(Join(parts, sep), parts[i])
    decreases |parts|
  {
    if |parts| == 1 {
      ContainsAt(parts[0], parts[0], 0);
    } else {
      var init := parts[..|parts| - 1];
      var last := parts[|parts| - 1];
      if i == |parts| - 1 {
        ContainsSuffix(Join(init, sep) + sep, last);
      } else {
        JoinContainsParts(init, sep, i);
        assert Join(parts, sep) == Join(init, sep) + (sep + last);
        ContainsExtended(Join(init, sep), sep + last, parts[i]);
      }
    }
  }

  /** An occurrence of an occurrence is an occurrence. */
  lemma {:induction false} ContainsTrans(s: string, t: string, u: string)
    requires Contains(s, t) && Contains(t, u)
    ensures Contains(s, u)
  {
    var i := ContainsWitness(s, t);
    var j := ContainsWitness(t, u);
    assert s[i..i + |t|] == t;
    forall k | 0 <= k < |u|
      ensures s[i + j..i + j + |u|][k] == u[k]
    {
      assert s[i + j + k] == s[i..i + |t|][j + k] == t[j..j + |u|][k];
    }
    assert s[i + j..i + j + |u|] == u;
    ContainsAt(s, u, i + j);
  }

  /** A bound condition of the query builder: its text and its named
      parameters. */
  datatype Condition = Condition(text: string, params: seq<(string, Value)>)

  /** The search clause: one condition per searchable field, OR'd
      together, added only for a non-empty search over at least one
      field. */
  function SearchClause(search: Option<string>, fields: seq<string>, pad: string): (c: Option<Condition>)
    ensures c.Some? <==> TruthyStr(search) && |fields| > 0
    ensures c.Some? ==> c.value.params == SearchParams(search.value, fields)
  {
    if TruthyStr(search) && |fields| > 0 then
      Some(Condition("(" + Join(FieldConditions(fields, pad), " OR ") + ")", SearchParams(search.value, fields)))
    else None
  }

  /** The search clause compares every searchable field with the pattern. */
  lemma {:induction false} SearchClauseCoversFields(search: Option<string>, fields: seq<string>, pad: string, i: nat)
    requires TruthyStr(search) && i < |fields|
    ensures Contains(SearchClause(search, fields, pad).value.text, SearchLike(fields[i]))
  {
    var joined := Join(FieldConditions(fields, pad), " OR ");
    JoinContainsParts(FieldConditions(fields, pad), " OR ", i);
    FieldConditionSearches(fields[i], pad);
    ContainsTrans(joined, FieldCondition(fields[i], pad), SearchLike(fields[i]));
    ContainsSuffix("(", joined);
    ContainsExtended("(" + joined, ")", joined);
    ContainsTrans("(" + joined + ")", joined, SearchLike(fields[i]));
  }

  // ---------------------------------------------------------------------
  // Sorting

  /** `sortOrder === 'asc' ? 'ASC' : 'DESC'` */
  function OrderOf(o: SortOrder): (r: string)
    ensures r == "ASC" <==> o == Asc
    ensures r == "ASC" || r == "DESC"
  {
    if o == Asc then "ASC" else "DESC"
  }

  /** The column and direction of `orderBy`: the requested field, else the
      repository's default. */
  function SortOf(sortBy: Option<string>, defaultField: string, o: SortOrder): (r: (string, string))
    ensures TruthyStr(sortBy) ==> r.0 == "entity." + sortBy.value
    ensures !TruthyStr(sortBy) ==> r.0 == "entity." + defaultField
    ensures r.1 == "ASC" <==> o == Asc
  {
    ("entity." + OrElse(sortBy, defaultField), OrderOf(o))
  }

  // ---------------------------------------------------------------------
  // buildWhereConditions

  predicate Nullish(v: Value) {
    v.Undefined? || v.Null?
  }

  /** The condition on one leaf: `prefix.key = :prefix_key`. */
  function LeafCondition(prefix: string, key: string, value: Value): Condition {
    var name := prefix + "_" + key;
    Condition(prefix + "." + key + " = :" + name, [(name, value)])
  }

  /** The conditions for the first `n` keys of a where object: null and
      undefined values are skipped, a nested object is descended into with
      its key as the alias, and every other value becomes one equality. */
  function WhereFrom(v: Value, n: nat, prefix: string): seq<Condition>
    requires v.Obj? && n <= |v.fields|
    decreases v, n
  {
    if n == 0 then []
    else
      var (key, value) := v.fields[n - 1];
      WhereFrom(v, n - 1, prefix)
      + (if Nullish(value) then []
         else if value.Obj? then WhereFrom(value, |value.fields|, key)
         else [LeafCondition(prefix, key, value)])
  }

  function WhereOf(fields: seq<(string, Value)>, prefix: string): seq<Condition> {
    WhereFrom(Obj(fields), |fields|, prefix)
  }

  /** The leaves of a where object: its values that are neither null,
      undefined nor nested objects, at any depth. */
  function Leaves(v: Value, n: nat): (r: nat)
    requires v.Obj? && n <= |v.fields|
    decreases v, n
  {
    if n == 0 then 0
    else
      var value := v.fields[n - 1].1;
      Leaves(v, n - 1)
      + (if Nullish(value) then 0 else if value.Obj? then Leaves(value, |value.fields|) else 1)
  }

  /** A condition that binds one present, non-object value under the
      parameter name its text ends with. */
  predicate BindsOneLeaf(c: Condition) {
    |c.params| == 1
    && !Nullish(c.params[0].1) && !c.params[0].1.Obj?
    && |c.text| >= |c.params[0].0| + 1
    && c.text[|c.text| - |c.params[0].0| - 1..] == ":" + c.params[0].0
  }

  /** One condition per leaf, each binding that leaf under the name it
      refers to. */
  lemma {:induction false} WhereBindsLeaves(v: Value, n: nat, prefix: string)
    requires v.Obj? && n <= |v.fields|
    ensures |WhereFrom(v, n, prefix)| == Leaves(v, n)
    ensures forall c :: c in WhereFrom(v, n, prefix) ==> BindsOneLeaf(c)
    decreases v, n
  {
    if n > 0 {
      var (key, value) := v.fields[n - 1];
      WhereBindsLeaves(v, n - 1, prefix);
      if !Nullish(value) {
        if value.Obj? {
          WhereBindsLeaves(value, |value.fields|, key);
        } else {
          var c := LeafCondition(prefix, key, value);
          var name := prefix + "_" + key;
          assert c.text == (prefix + "." + key + " = ") + (":" + name);
        }
      }
    }
  }

  /** The keys are visited in order: the conditions of a where object are
      those of its first keys followed by those of the rest. */
  lemma {:induction false} WhereConcat(a: seq<(string, Value)>, b: seq<(string, Value)>, prefix: string)
    ensures WhereOf(a + b, prefix) == WhereOf(a, prefix) + WhereOf(b, prefix)
    decreases |b|
  {
    if b == [] {
      assert a + b == a;
    } else {
      var b0 := b[..|b| - 1];
      WhereConcat(a, b0, prefix);
      assert (a + b)[..|a + b| - 1] == a + b0;
      assert (a + b)[|a + b| - 1] == b[|b| - 1];
      WherePrefix(a + b, |a + b| - 1, prefix);
      WherePrefix(b, |b| - 1, prefix);
    }
  }

  /** The conditions of the first `n` keys are those of the object cut to
      its first `n` keys. */
  lemma {:induction false} WherePrefix(fields: seq<(string, Value)>, n: nat, prefix: string)
    requires n <= |fields|
    ensures WhereFrom(Obj(fields), n, prefix) == WhereOf(fields[..n], prefix)
    decreases n
  {
    if n > 0 {
      WherePrefix(fields, n - 1, prefix);
      assert fields[..n][..n - 1] == fields[..n - 1];
      WherePrefix(fields[..n], n - 1, prefix);
      assert fields[..n][n - 1] == fields[n - 1];
    }
  }

  // ---------------------------------------------------------------------
  // The query builder

  /** What the query builder has been told: joined relations, conditions,
      ordering and paging. */
  datatype BuilderState = BuilderState(
    joins: seq<(string, string)>, conditions: seq<Condition>,
    order: Option<(string, string)>, skip: Option<int>, take: Option<int>)

  /** The part of a TypeORM `SelectQueryBuilder` the repository drives. */
  class QueryBuilder {
    var joins: seq<(string, string)>
    var conditions: seq<Condition>
    var order: Option<(string, string)>
    var skip: Option<int>
    var take: Option<int>

    function State(): BuilderState
      reads this
    {
      BuilderState(joins, conditions, order, skip, take)
    }

    constructor ()
      ensures State() == BuilderState([], [], None, None, None)
    {
      joins := [];
      conditions := [];
      order := None;
      skip := None;
      take := None;
    }

    /** `leftJoinAndSelect(path, alias)` */
    method LeftJoinAndSelect(path: string, alias: string)
      modifies this
      ensures State() == old(State()).(joins := old(joins) + [(path, alias)])
    {
      joins := joins + [(path, alias)];
    }

    /** `andWhere(text, params)` */
    method AndWhere(c: Condition)
      modifies this
      ensures State() == old(State()).(conditions := old(conditions) + [c])
    {
      conditions := conditions + [c];
    }

    /** `orderBy(field, direction)` replaces any earlier ordering. */
    method OrderBy(sort: (string, string))
      modifies this
      ensures State() == old(State()).(order := Some(sort))
    {
      order := Some(sort);
    }

    /** `skip(skip).take(take)` */
    method Page(skipCount: int, takeCount: int)
      modifies this
      ensures State() == old(State()).(skip := Some(skipCount), take := Some(takeCount))
    {
      skip := Some(skipCount);
      take := Some(takeCount);
    }
  }

  /** `entity.<relation>` joined under the relation's name, per relation. */
  function Joins(relations: seq<string>): (js: seq<(string, string)>)
    ensures |js| == |relations|
    ensures forall i :: 0 <= i < |relations| ==> js[i] == ("entity." + relations[i], relations[i])
  {
    seq(|relations|, i requires 0 <= i < |relations| => ("entity." + relations[i], relations[i]))
  }

  // ---------------------------------------------------------------------
  // findPaginated

  /** Indentation of the phone template in each copy. */
  const FindPaginatedPad := "          "
  const WithOptionsPad := "            "
  const BuildSearchPad := "        "

  /** Everything `findPaginated` tells the query builder. */
  function PaginatedPlan(o: PaginationOptions, fields: seq<string>, defaultSort: string,
                         where: Option<seq<(string, Value)>>, relations: Option<seq<string>>): BuilderState
  {
    var search := SearchClause(o.search, fields, FindPaginatedPad);
    BuilderState(
      if relations.Some? then Joins(relations.value) else [],
      (if search.Some? then [search.value] else []) + (if where.Some? then WhereOf(where.value, "entity") else []),
      Some(SortOf(o.sortBy, defaultSort, o.sortOrder)),
      Some(o.skip), Some(o.limit))
  }

  /** A search clause leads the conditions exactly when the search is
      non-empty and there are searchable fields; the filter conditions
      follow it; the order is ascending exactly when asked for; the page is
      the options' skip and limit. */
  lemma {:induction false} PaginatedPlanFacts(o: PaginationOptions, fields: seq<string>, defaultSort: string,
                           where: Option<seq<(string, Value)>>, relations: Option<seq<string>>)
    ensures var p := PaginatedPlan(o, fields, defaultSort, where, relations);
      var filters := if where.Some? then WhereOf(where.value, "entity") else [];
      (TruthyStr(o.search) && |fields| > 0 ==>
         |p.conditions| == |filters| + 1
         && p.conditions[0].params == SearchParams(o.search.value, fields)
         && p.conditions[1..] == filters)
      && (!(TruthyStr(o.search) && |fields| > 0) ==> p.conditions == filters)
      && (p.order.value.1 == "ASC" <==> o.sortOrder == Asc)
      && p.skip == Some(o.skip) && p.take == Some(o.limit)
  {
  }

  /** A repository with its searchable fields and default sort field. */
  class PaginatedRepository {
    const searchableFields: seq<string>
    const defaultSortField: string

    constructor (searchableFields: seq<string>, defaultSortField: string)
      ensures this.searchableFields == searchableFields && this.defaultSortField == defaultSortField
    {
      this.searchableFields := searchableFields;
      this.defaultSortField := defaultSortField;
    }

    /** `buildWhereConditions`: one `andWhere` per leaf, in key order. */
    method BuildWhereConditions(qb: QueryBuilder, v: Value, prefix: string)
      requires v.Obj?
      modifies qb
      ensures qb.State() == old(qb.State()).(conditions := old(qb.conditions) + WhereFrom(v, |v.fields|, prefix))
      decreases v
    {
      var i := 0;
      while i < |v.fields|
        invariant 0 <= i <= |v.fields|
        invariant qb.State() == old(qb.State()).(conditions := old(qb.conditions) + WhereFrom(v, i, prefix))
      {
        var (key, value) := v.fields[i];
        if !Nullish(value) {
          if value.Obj? {
            BuildWhereConditions(qb, value, key);
          } else {
            qb.AndWhere(LeafCondition(prefix, key, value));
          }
        }
        i := i + 1;
      }
    }

    /** `buildSearchQuery`, with the template indentation as a parameter. */
    method BuildSearchQuery(qb: QueryBuilder, search: Option<string>, pad: string)
      modifies qb
      ensures var c := SearchClause(search, searchableFields, pad);
        qb.State() == old(qb.State()).(conditions := old(qb.conditions) + (if c.Some? then [c.value] else []))
    {
      if !TruthyStr(search) || |searchableFields| == 0 {
        return;
      }
      var conditions := FieldConditions(searchableFields, pad);
      var params := SearchParams(search.value, searchableFields);
      qb.AndWhere(Condition("(" + Join(conditions, " OR ") + ")", params));
    }

    /** `buildSortQuery` */
    method BuildSortQuery(qb: QueryBuilder, sortBy: Option<string>, sortOrder: SortOrder)
      modifies qb
      ensures qb.State() == old(qb.State()).(order := Some(SortOf(sortBy, defaultSortField, sortOrder)))
    {
      var field := OrElse(sortBy, defaultSortField);
      qb.OrderBy(("entity." + field, OrderOf(sortOrder)));
    }

    /** Joins and selects every relation, in order. */
    method JoinRelations(qb: QueryBuilder, relations: seq<string>)
      modifies qb
      ensures qb.State() == old(qb.State()).(joins := old(qb.joins) + Joins(relations))
    {
      var i := 0;
      while i < |relations|
        invariant 0 <= i <= |relations|
        invariant qb.State() == old(qb.State()).(joins := old(qb.joins) + Joins(relations[..i]))
      {
        assert Joins(relations[..i + 1]) == Joins(relations[..i]) + [("entity." + relations[i], relations[i])];
        qb.LeftJoinAndSelect("entity." + relations[i], relations[i]);
        i := i + 1;
      }
      assert relations[..i] == relations;
    }

    /** The equalities of the phone search path: `entity.key = :key` for
        every present key of the given filter. */
    method AddEqualities(qb: QueryBuilder, w: seq<(string, Criterion)>)
      modifies qb
      ensures qb.State() == old(qb.State()).(conditions := old(qb.conditions) + EqualityConditions(w))
    {
      var i := 0;
      while i < |w|
        invariant 0 <= i <= |w|
        invariant qb.State() == old(qb.State()).(conditions := old(qb.conditions) + EqualityConditions(w[..i]))
      {
        assert w[..i + 1][..i] == w[..i];
        var (key, c) := w[i];
        if !NullishCriterion(c) {
          qb.AndWhere(Condition("entity." + key + " = :" + key, [(key, CriterionValue(c))]));
        }
        i := i + 1;
      }
      assert w[..i] == w;
    }

    /** `findPaginated`: builds the query, then wraps the rows and count
        the database returns for it. */
    method FindPaginated(o: PaginationOptions, where: Option<seq<(string, Value)>>,
                         relations: Option<seq<string>>, rows: seq<Value>, total: int)
      returns (plan: BuilderState, response: PaginatedResponse<Value>)
      ensures plan == PaginatedPlan(o, searchableFields, defaultSortField, where, relations)
      ensures response == NewPaginatedResponse(rows, o.page, o.limit, total)
    {
      var qb := new QueryBuilder();
      var joins := if relations.Some? then Joins(relations.value) else [];
      var search := SearchClause(o.search, searchableFields, FindPaginatedPad);
      var searches := if search.Some? then [search.value] else [];
      var filters := if where.Some? then WhereOf(where.value, "entity") else [];
      if relations.Some? && |relations.value| > 0 {
        JoinRelations(qb, relations.value);
        assert [] + joins == joins;
      }
      assert qb.State() == BuilderState(joins, [], None, None, None);
      BuildSearchQuery(qb, o.search, FindPaginatedPad);
      assert [] + searches == searches;
      assert qb.State() == BuilderState(joins, searches, None, None, None);
      if where.Some? {
        BuildWhereConditions(qb, Obj(where.value), "entity");
      }
      assert qb.State() == BuilderState(joins, searches + filters, None, None, None);
      BuildSortQuery(qb, o.sortBy, o.sortOrder);
      qb.Page(o.skip, o.limit);
      plan := qb.State();
      response := NewPaginatedResponse(rows, o.page, o.limit, total);
    }

    /** The query-builder path of `findPaginatedWithOptions`, taken for a
        search over the phone number. */
    method PhoneSearch(o: PaginationOptions, given: FindOptions) returns (state: BuilderState)
      requires TruthyStr(o.search)
      ensures state == PhoneSearchState(o, searchableFields, defaultSortField, given)
    {
      var qb := new QueryBuilder();
      var joins := if given.relations.Some? then Joins(given.relations.value) else [];
      var filters := if given.where.Some? then EqualityConditions(given.where.value) else [];
      if given.relations.Some? {
        JoinRelations(qb, given.relations.value);
        assert [] + joins == joins;
      }
      assert qb.State() == BuilderState(joins, [], None, None, None);
      if given.where.Some? {
        AddEqualities(qb, given.where.value);
        assert [] + filters == filters;
      }
      assert qb.State() == BuilderState(joins, filters, None, None, None);
      BuildSearchQuery(qb, o.search, WithOptionsPad);
      BuildSortQuery(qb, o.sortBy, o.sortOrder);
      qb.Page(o.skip, o.limit);
      state := qb.State();
    }

    /** `findPaginatedWithOptions`: a phone search goes through the query
        builder, any other request through find options. */
    method FindPaginatedWithOptions(o: PaginationOptions, findOptions: Option<FindOptions>,
                                    rows: seq<Value>, total: int)
      returns (plan: Plan, response: PaginatedResponse<Value>)
      ensures plan == WithOptionsPlan(o, searchableFields, defaultSortField, findOptions)
      ensures response == NewPaginatedResponse(rows, o.page, o.limit, total)
    {
      var given := if findOptions.Some? then findOptions.value else NoFindOptions;
      var final := FinalOptions(o, defaultSortField, given);
      if TruthyStr(o.search) && |searchableFields| > 0 {
        if PhoneField in searchableFields {
          var state := PhoneSearch(o, given);
          plan := Built(state);
        } else {
          plan := Found(FirstFieldSearch(o.search.value, searchableFields[0], final));
        }
      } else {
        plan := Found(final);
      }
      response := NewPaginatedResponse(rows, o.page, o.limit, total);
    }
  }

  // ---------------------------------------------------------------------
  // findPaginatedWithOptions

  /** A value of a where object in find options: a plain value or a
      `Like(pattern)` operator. */
  datatype Criterion = Equals(value: Value) | Like(pattern: string)

  predicate NullishCriterion(c: Criterion) {
    c.Equals? && Nullish(c.value)
  }

  /** The value bound for a criterion; an operator is bound as the string
      of its pattern. */
  function CriterionValue(c: Criterion): Value {
    match c
    case Equals(v) => v
    case Like(p) => Str(p)
  }

  /** The TypeORM find options the method reads and writes. */
  datatype FindOptions = FindOptions(
    where: Option<seq<(string, Criterion)>>, relations: Option<seq<string>>,
    order: Option<seq<(string, string)>>, skip: Option<int>, take: Option<int>)

  const NoFindOptions := FindOptions(None, None, None, None, None)

  /** How the rows are fetched: through the query builder, or with find
      options. */
  datatype Plan = Built(state: BuilderState) | Found(options: FindOptions)

  /** The first value under `key`, if any. */
  function Lookup(w: seq<(string, Criterion)>, key: string): Option<Criterion> {
    if w == [] then None else if w[0].0 == key then Some(w[0].1) else Lookup(w[1..], key)
  }

  /** `{ ...w, [key]: c }`: an existing key keeps its place and takes the
      new value, a new key goes last. */
  function Assign(w: seq<(string, Criterion)>, key: string, c: Criterion): seq<(string, Criterion)> {
    if w == [] then [(key, c)]
    else if w[0].0 == key then [(key, c)] + w[1..]
    else [w[0]] + Assign(w[1..], key, c)
  }

  /** After the spread, the key reads the new value and every other key
      reads what it read before; the keys keep their order. */
  lemma {:induction false} AssignFacts(w: seq<(string, Criterion)>, key: string, c: Criterion, other: string)
    requires other != key
    ensures Lookup(Assign(w, key, c), key) == Some(c)
    ensures Lookup(Assign(w, key, c), other) == Lookup(w, other)
    ensures |Assign(w, key, c)| == if Lookup(w, key).Some? then |w| else |w| + 1
    decreases |w|
  {
    if w != [] && w[0].0 != key {
      AssignFacts(w[1..], key, c, other);
      assert Assign(w, key, c)[1..] == Assign(w[1..], key, c);
    }
  }

  /** `entity.key = :key` for every present top-level key, in order. */
  function EqualityConditions(w: seq<(string, Criterion)>): seq<Condition>
    decreases |w|
  {
    if w == [] then []
    else
      var (key, c) := w[|w| - 1];
      EqualityConditions(w[..|w| - 1])
      + (if NullishCriterion(c) then [] else [Condition("entity." + key + " = :" + key, [(key, CriterionValue(c))])])
  }

  /** The given options with the page and, unless given, the order set. */
  function FinalOptions(o: PaginationOptions, defaultSort: string, given: FindOptions): (f: FindOptions)
    ensures f.where == given.where && f.relations == given.relations
    ensures f.skip == Some(o.skip) && f.take == Some(o.limit)
    ensures given.order.Some? ==> f.order == given.order
    ensures given.order.None? ==> f.order == Some([(OrElse(o.sortBy, defaultSort), OrderOf(o.sortOrder))])
  {
    given.(skip := Some(o.skip), take := Some(o.limit),
           order := if given.order.Some? then given.order
                    else Some([(OrElse(o.sortBy, defaultSort), OrderOf(o.sortOrder))]))
  }

  /** The query the phone search path builds: the given filter's present
      keys as equalities, then the search clause, the requested sort and
      the page. */
  function PhoneSearchState(o: PaginationOptions, fields: seq<string>, defaultSort: string,
                            given: FindOptions): BuilderState
    requires TruthyStr(o.search)
  {
    var search := SearchClause(o.search, fields, WithOptionsPad);
    BuilderState(
      if given.relations.Some? then Joins(given.relations.value) else [],
      (if given.where.Some? then EqualityConditions(given.where.value) else [])
      + (if search.Some? then [search.value] else []),
      Some(SortOf(o.sortBy, defaultSort, o.sortOrder)),
      Some(o.skip), Some(o.limit))
  }

  /** The find options of a search without a phone field: the first field
      matched with `Like('%search%')`, spread over the given filter. */
  function FirstFieldSearch(search: string, field: string, final: FindOptions): FindOptions {
    var like := Like(Wildcard(search));
    final.(where := Some(if final.where.Some? then Assign(final.where.value, field, like) else [(field, like)]))
  }

  /** Everything `findPaginatedWithOptions` decides. */
  function WithOptionsPlan(o: PaginationOptions, fields: seq<string>, defaultSort: string,
                           findOptions: Option<FindOptions>): Plan
  {
    var given := if findOptions.Some? then findOptions.value else NoFindOptions;
    var final := FinalOptions(o, defaultSort, given);
    if TruthyStr(o.search) && |fields| > 0 then
      if PhoneField in fields then Built(PhoneSearchState(o, fields, defaultSort, given))
      else Found(FirstFieldSearch(o.search.value, fields[0], final))
    else Found(final)
  }

  /** Without a phone field, a search filters on the first searchable field
      alone, overriding that key of the given filter and keeping the
      others; the given order, or else the requested one, is kept. */
  lemma {:induction false} FirstFieldOnly(o: PaginationOptions, fields: seq<string>, defaultSort: string,
                       findOptions: Option<FindOptions>, other: string)
    requires TruthyStr(o.search) && |fields| > 0 && PhoneField !in fields
    requires other != fields[0]
    ensures var p := WithOptionsPlan(o, fields, defaultSort, findOptions);
      var given := if findOptions.Some? then findOptions.value.where else None;
      p.Found? && p.options.where.Some?
      && Lookup(p.options.where.value, fields[0]) == Some(Like(Wildcard(o.search.value)))
      && Lookup(p.options.where.value, other) == (if given.Some? then Lookup(given.value, other) else None)
      && p.options.skip == Some(o.skip) && p.options.take == Some(o.limit)
  {
    var given := if findOptions.Some? then findOptions.value.where else None;
    if given.Some? {
      AssignFacts(given.value, fields[0], Like(Wildcard(o.search.value)), other);
    }
  }

  /** A phone search uses the query builder: the given filter's present
      keys as equalities, then the search clause with the phone patterns,
      sorted as requested whatever order the options give. */
  lemma {:induction false} PhoneSearchBuildsQuery(o: PaginationOptions, fields: seq<string>, defaultSort: string,
                               findOptions: Option<FindOptions>)
    requires TruthyStr(o.search) && PhoneField in fields
    ensures var p := WithOptionsPlan(o, fields, defaultSort, findOptions);
      p.Built? && |p.state.conditions| >= 1
      && |p.state.conditions[|p.state.conditions| - 1].params| == 3
      && p.state.order == Some(SortOf(o.sortBy, defaultSort, o.sortOrder))
  {
  }
}
