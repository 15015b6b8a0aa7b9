/** The analytics service: the custom-query wrapper and the three reports
    it computes itself from the events the repository returns (content
    performance, error analytics, conversion funnel). */
module Reports {
  import opened Text
  import opened Values
  import opened Errors
  import opened Sorting
  import opened Analytics
  import ClickHouse

  // ---------------------------------------------------------------------
  // Keyed collections in insertion order

  predicate Distinct<K(==)>(s: seq<K>) {
    forall i, j :: 0 <= i < j < |s| ==> s[i] != s[j]
  }

  /** Every key in `keys` has an entry in `m`. */
  predicate KeysIn<K, V>(keys: seq<K>, m: map<K, V>) {
    forall i :: 0 <= i < |keys| ==> keys[i] in m
  }

  /** The sum of `m[k]` over `keys`. */
  function Total<K>(keys: seq<K>, m: map<K, nat>): nat
    requires KeysIn(keys, m)
    decreases |keys|
  {
    if keys == [] then 0 else Total(keys[..|keys| - 1], m) + m[keys[|keys| - 1]]
  }

  /** Setting a key the sum does not range over leaves it unchanged. */
  lemma {:induction false} TotalFresh<K>(keys: seq<K>, m: map<K, nat>, k: K, v: nat)
    requires KeysIn(keys, m)
    requires k !in keys
    ensures Total(keys, m[k := v]) == Total(keys, m)
    decreases |keys|
  {
    if keys != [] {
      var init := keys[..|keys| - 1];
      assert keys == init + [keys[|keys| - 1]];
      TotalFresh(init, m, k, v);
    }
  }

  /** Adding one to the count of a key the sum ranges over once adds one
      to the sum. */
  lemma {:induction false} TotalBump<K>(keys: seq<K>, m: map<K, nat>, k: K)
    requires KeysIn(keys, m)
    requires Distinct(keys) && k in keys
    ensures Total(keys, m[k := m[k] + 1]) == Total(keys, m) + 1
    decreases |keys|
  {
    var init := keys[..|keys| - 1];
    var last := keys[|keys| - 1];
    assert keys == init + [last];
    if last == k {
      forall i | 0 <= i < |init|
        ensures init[i] != k
      {
        assert init[i] == keys[i];
      }
      TotalFresh(init, m, k, m[k] + 1);
    } else {
      TotalBump(init, m, k);
    }
  }

  /** A fresh key at the end adds its value to the sum. */
  lemma {:induction false} TotalAppendFresh<K>(keys: seq<K>, m: map<K, nat>, k: K, v: nat)
    requires KeysIn(keys, m)
    requires k !in keys
    ensures Total(keys + [k], m[k := v]) == Total(keys, m) + v
  {
    assert (keys + [k])[..|keys|] == keys;
    TotalFresh(keys, m, k, v);
  }

  /** A plain object used as a counter: its keys in insertion order and
      their counts. */
  datatype Tally = Tally(keys: seq<string>, counts: map<string, nat>)

  ghost predicate WellFormed(t: Tally) {
    Distinct(t.keys) && forall k :: k in t.keys <==> k in t.counts
  }

  /** `counts[key] = (counts[key] || 0) + 1` */
  function Bump(t: Tally, key: string): (r: Tally)
    requires WellFormed(t)
    ensures WellFormed(r)
  {
    if key in t.counts then Tally(t.keys, t.counts[key := t.counts[key] + 1])
    else Tally(t.keys + [key], t.counts[key := 1])
  }

  /** The counter after counting `keys` in order. */
  function TallyOf(keys: seq<string>): (t: Tally)
    ensures WellFormed(t)
    decreases |keys|
  {
    if keys == [] then Tally([], map[]) else Bump(TallyOf(keys[..|keys| - 1]), keys[|keys| - 1])
  }

  /** Each key is counted once per occurrence. */
  lemma {:induction false} TallyOfCount(keys: seq<string>, k: string)
    ensures k in TallyOf(keys).counts <==> k in multiset(keys)
    ensures k in TallyOf(keys).counts ==> TallyOf(keys).counts[k] == multiset(keys)[k]
    decreases |keys|
  {
    if keys != [] {
      var init := keys[..|keys| - 1];
      var x := keys[|keys| - 1];
      TallyOfCount(init, k);
      assert keys == init + [x];
      assert multiset(keys) == multiset(init) + multiset{x};
    }
  }

  /** Counting one more key adds one to the sum of the counts. */
  lemma {:induction false} BumpTotal(t: Tally, key: string)
    requires WellFormed(t)
    ensures Total(Bump(t, key).keys, Bump(t, key).counts) == Total(t.keys, t.counts) + 1
  {
    assert KeysIn(t.keys, t.counts) by {
      forall i | 0 <= i < |t.keys|
        ensures t.keys[i] in t.counts
      {
        assert t.keys[i] in t.keys;
      }
    }
    if key in t.counts {
      TotalBump(t.keys, t.counts, key);
    } else {
      TotalAppendFresh(t.keys, t.counts, key, 1);
    }
  }

  /** The counts sum to the number of keys counted. */
  lemma {:induction false} TallyOfTotal(keys: seq<string>)
    ensures Total(TallyOf(keys).keys, TallyOf(keys).counts) == |keys|
    decreases |keys|
  {
    if keys != [] {
      var init := keys[..|keys| - 1];
      TallyOfTotal(init);
      BumpTotal(TallyOf(init), keys[|keys| - 1]);
    }
  }

  // ---------------------------------------------------------------------
  // executeCustomQuery

  datatype CustomQueryResult = CustomQueryResult(data: Value, total: Value, query: string)

  /** `data.length`: the number of elements of an array or characters of a
      string, the `length` field of an object, nothing for other values. */
  function LengthOf(data: Value): (r: Result<Value>)
    ensures data.Arr? ==> r == Ok(Num(|data.elems|))
    ensures data.Str? ==> r == Ok(Num(|data.s|))
    ensures r.Err? <==> data.Null? || data.Undefined?
  {
    match data
    case Arr(elems) => Ok(Num(|elems|))
    case Str(s) => Ok(Num(|s|))
    case Obj(_) => Ok(Get(data, "length"))
    case Null => Err(PlainError(ReadOfNothing(data, "length")))
    case Undefined => Err(PlainError(ReadOfNothing(data, "length")))
    case _ => Ok(Undefined)
  }

  // ---------------------------------------------------------------------
  // getContentPerformance

  /** `event.properties?.<field>` */
  function Property(row: Value, field: string): Value {
    Get(Get(row, "properties"), field)
  }

  /** `episode_id || content_id || 'unknown'` */
  function ContentKey(row: Value): Value {
    Or(Or(Property(row, "episode_id"), Property(row, "content_id")), Str("unknown"))
  }

  /** The key is the episode id when truthy, else the content id when
      truthy, else `unknown`; so it is never falsy. */
  lemma {:induction false} ContentKeyChoice(row: Value)
    ensures Truthy(ContentKey(row))
    ensures Truthy(Property(row, "episode_id")) ==> ContentKey(row) == Property(row, "episode_id")
    ensures !Truthy(Property(row, "episode_id")) && Truthy(Property(row, "content_id"))
      ==> ContentKey(row) == Property(row, "content_id")
    ensures !Truthy(Property(row, "episode_id")) && !Truthy(Property(row, "content_id"))
      ==> ContentKey(row) == Str("unknown")
  {
  }

  /** `episode_title || title || 'Unknown'` */
  function TitleOf(row: Value): Value {
    Or(Or(Property(row, "episode_title"), Property(row, "title")), Str("Unknown"))
  }

  /** `Set.prototype.add`, keeping insertion order as `Array.from` sees it. */
  function AddToSet(s: seq<Value>, v: Value): (r: seq<Value>)
    ensures v in r && forall x :: x in r <==> x in s || x == v
    ensures Distinct(s) ==> Distinct(r)
  {
    if v in s then s else s + [v]
  }

  /** One entry of the content map. */
  datatype Group = Group(contentId: Value, title: Value, opens: nat, users: set<Value>,
                         platforms: seq<Value>, versions: seq<Value>)

  /** The `Map` from content key to entry, in insertion order. */
  datatype ContentMap = ContentMap(keys: seq<Value>, groups: map<Value, Group>)

  ghost predicate MapWellFormed(m: ContentMap) {
    Distinct(m.keys) && forall k :: k in m.keys <==> k in m.groups
  }

  /** The entry created on the first event with a key. */
  function NewGroup(row: Value): (g: Group)
    ensures g.contentId == ContentKey(row) && g.title == TitleOf(row)
    ensures g.opens == 0 && g.users == {} && g.platforms == [] && g.versions == []
  {
    Group(ContentKey(row), TitleOf(row), 0, {}, [], [])
  }

  /** What one event adds to its entry: an open, its user when truthy, its
      platform and version when not yet listed. */
  function Record(g: Group, row: Value): (r: Group)
    ensures r.contentId == g.contentId && r.title == g.title && r.opens == g.opens + 1
    ensures r.users == g.users || r.users == g.users + {Get(row, "user_id")}
    ensures Distinct(g.platforms) ==> Distinct(r.platforms)
    ensures Distinct(g.versions) ==> Distinct(r.versions)
  {
    var user := Get(row, "user_id");
    g.(opens := g.opens + 1,
       users := if Truthy(user) then g.users + {user} else g.users,
       platforms := AddToSet(g.platforms, Get(row, "platform")),
       versions := AddToSet(g.versions, Get(row, "version")))
  }

  /** One event of the `forEach`: the entry of its key is created on first
      sight with its title, then updated. */
  function Open(m: ContentMap, row: Value): (r: ContentMap)
    requires MapWellFormed(m)
    ensures MapWellFormed(r)
  {
    var key := ContentKey(row);
    if key in m.groups then ContentMap(m.keys, m.groups[key := Record(m.groups[key], row)])
    else ContentMap(m.keys + [key], m.groups[key := Record(NewGroup(row), row)])
  }

  /** The content map after all events. */
  function Grouped(rows: seq<Value>): (m: ContentMap)
    ensures MapWellFormed(m)
    decreases |rows|
  {
    if rows == [] then ContentMap([], map[]) else Open(Grouped(rows[..|rows| - 1]), rows[|rows| - 1])
  }

  /** The opens of each entry. */
  function OpensOf(m: ContentMap): (opens: map<Value, nat>)
    ensures opens.Keys == m.groups.Keys
    ensures forall k :: k in m.groups ==> opens[k] == m.groups[k].opens
  {
    map k | k in m.groups :: m.groups[k].opens
  }

  /** Updating one entry with one more open adds one to its opens and
      leaves the other entries' opens alone. */
  lemma {:induction false} UpdateOpens(m: ContentMap, keys: seq<Value>, key: Value, g: Group, before: nat)
    requires MapWellFormed(m)
    requires g.opens == before + 1
    requires key in m.groups ==> before == m.groups[key].opens
    requires key !in m.groups ==> before == 0
    ensures OpensOf(ContentMap(keys, m.groups[key := g]))
      == OpensOf(m)[key := if key in m.groups then OpensOf(m)[key] + 1 else 1]
  {
    var lhs := OpensOf(ContentMap(keys, m.groups[key := g]));
    var rhs := OpensOf(m)[key := if key in m.groups then OpensOf(m)[key] + 1 else 1];
    assert lhs.Keys == rhs.Keys;
    forall k | k in lhs
      ensures lhs[k] == rhs[k]
    {
    }
  }

  /** One event adds one open to its own key's entry and none elsewhere. */
  lemma {:induction false} OpenOpens(m: ContentMap, row: Value)
    requires MapWellFormed(m)
    ensures var key := ContentKey(row);
      OpensOf(Open(m, row)) == OpensOf(m)[key := if key in m.groups then OpensOf(m)[key] + 1 else 1]
  {
    var key := ContentKey(row);
    if key in m.groups {
      UpdateOpens(m, m.keys, key, Record(m.groups[key], row), m.groups[key].opens);
    } else {
      UpdateOpens(m, m.keys + [key], key, Record(NewGroup(row), row), 0);
    }
  }

  /** One event adds one to the sum of the opens. */
  lemma {:induction false} OpenTotal(m: ContentMap, row: Value)
    requires MapWellFormed(m)
    ensures Total(Open(m, row).keys, OpensOf(Open(m, row))) == Total(m.keys, OpensOf(m)) + 1
  {
    var key := ContentKey(row);
    var r := Open(m, row);
    OpenOpens(m, row);
    assert key in m.groups <==> key in m.keys;
    if key in m.groups {
      assert r.keys == m.keys;
    } else {
      assert r.keys == m.keys + [key];
    }
    TotalStep(m.keys, OpensOf(m), r.keys, OpensOf(r), key);
  }

  /** Bumping an existing key's count, or appending a fresh key with count 1,
      adds one to the total. */
  lemma {:induction false} TotalStep<K>(keys: seq<K>, o: map<K, nat>, keys': seq<K>, o': map<K, nat>, key: K)
    requires Distinct(keys) && forall k :: k in keys <==> k in o
    requires key in o ==> keys' == keys && o' == o[key := o[key] + 1]
    requires key !in o ==> keys' == keys + [key] && o' == o[key := 1]
    ensures KeysIn(keys', o') && Total(keys', o') == Total(keys, o) + 1
  {
    assert KeysIn(keys, o);
    if key in o {
      TotalBump(keys, o, key);
    } else {
      TotalAppendFresh(keys, o, key, 1);
    }
  }

  /** Every event is counted once, under its own key: the opens sum to the
      number of events. */
  lemma {:induction false} OpensCountEvents(rows: seq<Value>)
    ensures Total(Grouped(rows).keys, OpensOf(Grouped(rows))) == |rows|
    decreases |rows|
  {
    if rows != [] {
      var init := rows[..|rows| - 1];
      OpensCountEvents(init);
      OpenTotal(Grouped(init), rows[|rows| - 1]);
    }
  }

  /** An entry never has more distinct users than opens, and its platforms
      and versions lists hold no repeats. */
  lemma {:induction false} UsersAtMostOpens(rows: seq<Value>)
    ensures forall k :: k in Grouped(rows).groups ==>
      |Grouped(rows).groups[k].users| <= Grouped(rows).groups[k].opens
      && Distinct(Grouped(rows).groups[k].platforms) && Distinct(Grouped(rows).groups[k].versions)
    decreases |rows|
  {
    if rows != [] {
      var init := rows[..|rows| - 1];
      var row := rows[|rows| - 1];
      UsersAtMostOpens(init);
      var m := Grouped(init);
      var key := ContentKey(row);
      var user := Get(row, "user_id");
      if key in m.groups {
        var g := m.groups[key];
        assert |g.users + {user}| <= |g.users| + 1;
      }
    }
  }

  /** An event leaves the id and title of every entry it finds in place,
      and creates the entry of its key with its own title otherwise. */
  lemma {:induction false} OpenKeepsTitles(m: ContentMap, row: Value, key: Value)
    requires MapWellFormed(m)
    requires key in Open(m, row).groups
    ensures key in m.groups || key == ContentKey(row)
    ensures key in m.groups ==> (Open(m, row).groups[key].contentId == m.groups[key].contentId
      && Open(m, row).groups[key].title == m.groups[key].title)
    ensures key !in m.groups ==> (Open(m, row).groups[key].contentId == key
      && Open(m, row).groups[key].title == TitleOf(row))
  {
  }

  /** Event `i` is the first one with key `key`. */
  ghost predicate FirstWithKey(rows: seq<Value>, i: int, key: Value) {
    0 <= i < |rows| && ContentKey(rows[i]) == key && forall j :: 0 <= j < i ==> ContentKey(rows[j]) != key
  }

  /** The first event with a key stays the first when more events follow. */
  lemma {:induction false} FirstWithKeyExtends(rows: seq<Value>, i: int, key: Value)
    requires rows != [] && FirstWithKey(rows[..|rows| - 1], i, key)
    ensures FirstWithKey(rows, i, key)
  {
    var init := rows[..|rows| - 1];
    assert rows[i] == init[i];
    forall j | 0 <= j < i
      ensures ContentKey(rows[j]) != key
    {
      assert rows[j] == init[j];
    }
  }

  /** The last event is the first with its key when no earlier event has
      an entry under it. */
  lemma {:induction false} FirstWithKeyLast(rows: seq<Value>, key: Value)
    requires rows != [] && ContentKey(rows[|rows| - 1]) == key
    requires key !in Grouped(rows[..|rows| - 1]).groups
    ensures FirstWithKey(rows, |rows| - 1, key)
  {
    var init := rows[..|rows| - 1];
    AbsentKeyUnseen(init, key);
    forall j | 0 <= j < |rows| - 1
      ensures ContentKey(rows[j]) != key
    {
      assert rows[j] == init[j];
    }
  }

  /** The title of an entry is the one of the first event with its key,
      and its id is that key. */
  lemma {:induction false} FirstTitleWins(rows: seq<Value>, key: Value)
    requires key in Grouped(rows).groups
    ensures Grouped(rows).groups[key].contentId == key
    ensures exists i :: FirstWithKey(rows, i, key) && Grouped(rows).groups[key].title == TitleOf(rows[i])
    decreases |rows|
  {
    var init := rows[..|rows| - 1];
    var row := rows[|rows| - 1];
    var m := Grouped(init);
    OpenKeepsTitles(m, row, key);
    if key in m.groups {
      FirstTitleWins(init, key);
      var i :| FirstWithKey(init, i, key) && m.groups[key].title == TitleOf(init[i]);
      FirstWithKeyExtends(rows, i, key);
      assert rows[i] == init[i];
    } else {
      FirstWithKeyLast(rows, key);
    }
  }

  /** A key without an entry is the key of no event seen so far. */
  lemma {:induction false} AbsentKeyUnseen(rows: seq<Value>, key: Value)
    requires key !in Grouped(rows).groups
    ensures forall j :: 0 <= j < |rows| ==> ContentKey(rows[j]) != key
  {
    forall j | 0 <= j < |rows|
      ensures ContentKey(rows[j]) != key
    {
      KeyOfEarlierRowPresent(rows, j);
    }
  }

  /** The key of every event seen so far has an entry. */
  lemma {:induction false} KeyOfEarlierRowPresent(rows: seq<Value>, j: nat)
    requires j < |rows|
    ensures ContentKey(rows[j]) in Grouped(rows).groups
    decreases |rows|
  {
    if j < |rows| - 1 {
      var init := rows[..|rows| - 1];
      KeyOfEarlierRowPresent(init, j);
      assert rows[j] == init[j];
    }
  }

  /** An entry as the report lists it. */
  datatype ContentPerformance = ContentPerformance(contentId: Value, title: Value, totalOpens: nat,
                                                   uniqueUsers: nat, platforms: seq<Value>, versions: seq<Value>)

  function Summary(g: Group): (p: ContentPerformance)
    ensures p.contentId == g.contentId && p.title == g.title && p.totalOpens == g.opens
    ensures p.uniqueUsers == |g.users| && p.platforms == g.platforms && p.versions == g.versions
  {
    ContentPerformance(g.contentId, g.title, g.opens, |g.users|, g.platforms, g.versions)
  }

  /** `Array.from(contentMap.values()).map(...)`, in insertion order. */
  function Summaries(keys: seq<Value>, groups: map<Value, Group>): (ps: seq<ContentPerformance>)
    requires KeysIn(keys, groups)
    ensures |ps| == |keys|
    ensures forall i :: 0 <= i < |keys| ==> ps[i] == Summary(groups[keys[i]])
  {
    seq(|keys|, i requires 0 <= i < |keys| => Summary(groups[keys[i]]))
  }

  function TotalOpens(p: ContentPerformance): int {
    p.totalOpens
  }

  /** The listed opens add up to the sum of the entries' opens. */
  lemma {:induction false} SummariesTotal(keys: seq<Value>, m: ContentMap)
    requires KeysIn(keys, m.groups)
    ensures SumBy(Summaries(keys, m.groups), TotalOpens) == Total(keys, OpensOf(m))
    decreases |keys|
  {
    if keys != [] {
      var init := keys[..|keys| - 1];
      SummariesTotal(init, m);
      assert Summaries(keys, m.groups)[..|keys| - 1] == Summaries(init, m.groups);
    }
  }

  /** The content report: entries sorted by opens, most opened first (the
      stable sort keeps ties in insertion order). */
  function ContentReport(rows: seq<Value>): seq<ContentPerformance> {
    var m := Grouped(rows);
    SortDesc(Summaries(m.keys, m.groups), TotalOpens)
  }

  /** The `forEach` and the final `map` and `sort` of
      `getContentPerformance`. */
  method ContentPerformanceOf(rows: seq<Value>) returns (report: seq<ContentPerformance>)
    ensures report == ContentReport(rows)
  {
    var keys: seq<Value> := [];
    var groups: map<Value, Group> := map[];
    var k := 0;
    while k < |rows|
      invariant 0 <= k <= |rows|
      invariant ContentMap(keys, groups) == Grouped(rows[..k])
    {
      assert rows[..k + 1][..k] == rows[..k];
      var row := rows[k];
      var key := ContentKey(row);
      if key in groups {
        groups := groups[key := Record(groups[key], row)];
      } else {
        keys := keys + [key];
        groups := groups[key := Record(NewGroup(row), row)];
      }
      k := k + 1;
    }
    assert rows[..k] == rows;
    report := SortDesc(Summaries(keys, groups), TotalOpens);
  }

  /** What the content report promises: sorted by opens, one entry per
      distinct key, the opens adding up to the number of events, and no
      entry with more users than opens. */
  lemma {:induction false} ContentReportFacts(rows: seq<Value>)
    ensures SortedDesc(ContentReport(rows), TotalOpens)
    ensures |ContentReport(rows)| == |Grouped(rows).keys|
    ensures SumBy(ContentReport(rows), TotalOpens) == |rows|
    ensures forall p :: p in ContentReport(rows) ==> p.uniqueUsers <= p.totalOpens
  {
    var m := Grouped(rows);
    var listed := Summaries(m.keys, m.groups);
    SumByPermutation(ContentReport(rows), listed, TotalOpens);
    SummariesTotal(m.keys, m);
    OpensCountEvents(rows);
    UsersAtMostOpens(rows);
    forall p | p in ContentReport(rows)
      ensures p.uniqueUsers <= p.totalOpens
    {
      SortDescSameElements(listed, TotalOpens, p);
    }
  }

  // ---------------------------------------------------------------------
  // getErrorAnalytics

  /** `event.properties?.<field> || 'unknown'`, as the object key it
      becomes. */
  function PropertyOrUnknown(row: Value, field: string): string {
    PropertyKey(Or(Property(row, field), Str("unknown")))
  }

  /** The keys one counter counts, one per event. */
  function KeysOf(rows: seq<Value>, field: string): (keys: seq<string>)
    ensures |keys| == |rows|
    ensures forall i :: 0 <= i < |rows| ==> keys[i] == PropertyOrUnknown(rows[i], field)
  {
    seq(|rows|, i requires 0 <= i < |rows| => PropertyOrUnknown(rows[i], field))
  }

  /** `Object.entries` of a counter. */
  function Entries(t: Tally): (es: seq<(string, nat)>)
    requires WellFormed(t)
    ensures |es| == |t.keys|
    ensures forall i :: 0 <= i < |es| ==> es[i] == (t.keys[i], t.counts[t.keys[i]])
  {
    seq(|t.keys|, i requires 0 <= i < |t.keys| => (t.keys[i], t.counts[t.keys[i]]))
  }

  function CountOf(e: (string, nat)): int {
    e.1
  }

  /** The entries sorted by count, most frequent first, cut to ten. */
  function TopErrors(t: Tally): (top: seq<(string, nat)>)
    requires WellFormed(t)
    ensures |top| == if |t.keys| < 10 then |t.keys| else 10
    ensures SortedDesc(top, CountOf)
    ensures forall e :: e in top ==> e in Entries(t)
  {
    var sorted := SortDesc(Entries(t), CountOf);
    forall e | e in sorted
      ensures e in Entries(t)
    {
      SortDescSameElements(Entries(t), CountOf, e);
    }
    if |sorted| <= 10 then sorted else sorted[..10]
  }

  /** No entry left out of the top ten counts more than one kept in. */
  lemma {:induction false} TopErrorsAreLargest(t: Tally, e: (string, nat))
    requires WellFormed(t)
    requires e in Entries(t) && e !in TopErrors(t)
    ensures forall f :: f in TopErrors(t) ==> CountOf(f) >= CountOf(e)
  {
    var sorted := SortDesc(Entries(t), CountOf);
    SortDescSameElements(Entries(t), CountOf, e);
    var j :| 0 <= j < |sorted| && sorted[j] == e;
    assert j >= 10;
    forall f | f in TopErrors(t)
      ensures CountOf(f) >= CountOf(e)
    {
      var i :| 0 <= i < 10 && sorted[..10][i] == f;
      assert sorted[i] == f;
    }
  }

  datatype ErrorReport = ErrorReport(totalErrors: nat, errorTypes: Tally, affectedEndpoints: Tally,
                                     userImpact: Tally, topErrors: seq<(string, nat)>)

  /** The error report of a list of events. */
  function ErrorReportOf(rows: seq<Value>): ErrorReport {
    var types := TallyOf(KeysOf(rows, "error_type"));
    ErrorReport(|rows|, types, TallyOf(KeysOf(rows, "endpoint")), TallyOf(KeysOf(rows, "user_impact")),
                TopErrors(types))
  }

  /** Counting one more event bumps its key. */
  lemma {:induction false} TallyStep(rows: seq<Value>, field: string, k: nat)
    requires k < |rows|
    ensures TallyOf(KeysOf(rows, field)[..k + 1])
      == Bump(TallyOf(KeysOf(rows, field)[..k]), PropertyOrUnknown(rows[k], field))
  {
    var keys := KeysOf(rows, field);
    assert keys[..k + 1][..k] == keys[..k];
  }

  /** The `forEach` of `getErrorAnalytics`, then the top ten. */
  method ErrorAnalyticsOf(rows: seq<Value>) returns (report: ErrorReport)
    ensures report == ErrorReportOf(rows)
  {
    var types := Tally([], map[]);
    var endpoints := Tally([], map[]);
    var impact := Tally([], map[]);
    var k := 0;
    while k < |rows|
      invariant 0 <= k <= |rows|
      invariant types == TallyOf(KeysOf(rows, "error_type")[..k])
      invariant endpoints == TallyOf(KeysOf(rows, "endpoint")[..k])
      invariant impact == TallyOf(KeysOf(rows, "user_impact")[..k])
    {
      TallyStep(rows, "error_type", k);
      TallyStep(rows, "endpoint", k);
      TallyStep(rows, "user_impact", k);
      types := Bump(types, PropertyOrUnknown(rows[k], "error_type"));
      endpoints := Bump(endpoints, PropertyOrUnknown(rows[k], "endpoint"));
      impact := Bump(impact, PropertyOrUnknown(rows[k], "user_impact"));
      k := k + 1;
    }
    assert KeysOf(rows, "error_type")[..k] == KeysOf(rows, "error_type");
    assert KeysOf(rows, "endpoint")[..k] == KeysOf(rows, "endpoint");
    assert KeysOf(rows, "user_impact")[..k] == KeysOf(rows, "user_impact");
    report := ErrorReport(|rows|, types, endpoints, impact, TopErrors(types));
  }

  /** Each of the three counters sums to the number of errors. */
  lemma {:induction false} ErrorCountsSumToTotal(rows: seq<Value>)
    ensures var r := ErrorReportOf(rows);
      Total(r.errorTypes.keys, r.errorTypes.counts) == r.totalErrors
      && Total(r.affectedEndpoints.keys, r.affectedEndpoints.counts) == r.totalErrors
      && Total(r.userImpact.keys, r.userImpact.counts) == r.totalErrors
  {
    TallyOfTotal(KeysOf(rows, "error_type"));
    TallyOfTotal(KeysOf(rows, "endpoint"));
    TallyOfTotal(KeysOf(rows, "user_impact"));
  }

  /** An event without an `error_type` is counted under `unknown`. */
  lemma {:induction false} MissingTypeCountsAsUnknown(rows: seq<Value>, i: nat)
    requires i < |rows| && !Truthy(Property(rows[i], "error_type"))
    ensures "unknown" in ErrorReportOf(rows).errorTypes.counts
  {
    var keys := KeysOf(rows, "error_type");
    TallyOfCount(keys, "unknown");
    assert keys[i] == "unknown";
    assert keys[i] in multiset(keys);
  }

  // ---------------------------------------------------------------------
  // getConversionFunnel

  /** One step of a user's funnel. */
  datatype FunnelStep = FunnelStep(eventName: Value, timestamp: Value, properties: Value)

  function StepOf(row: Value): FunnelStep {
    FunnelStep(Get(row, "event_name"), Get(row, "timestamp"), Get(row, "properties"))
  }

  /** The per-user funnels: each user's events in order; events without a
      truthy `user_id` are skipped. */
  function Funnels(rows: seq<Value>): map<Value, seq<FunnelStep>>
    decreases |rows|
  {
    if rows == [] then map[]
    else
      var m := Funnels(rows[..|rows| - 1]);
      var row := rows[|rows| - 1];
      var user := Get(row, "user_id");
      if !Truthy(user) then m
      else if user in m then m[user := m[user] + [StepOf(row)]]
      else m[user := [StepOf(row)]]
  }

  /** The steps of the events of one user, in order. */
  function UserSteps(rows: seq<Value>, user: Value): (steps: seq<FunnelStep>)
    ensures |steps| <= |rows|
    decreases |rows|
  {
    if rows == [] then []
    else
      var row := rows[|rows| - 1];
      UserSteps(rows[..|rows| - 1], user) + (if Get(row, "user_id") == user then [StepOf(row)] else [])
  }

  /** A user with a truthy id has a funnel exactly when one of the events
      is theirs, and the funnel is the steps of their events in order;
      events without a truthy id give no funnel. */
  lemma {:induction false} FunnelOfUser(rows: seq<Value>, user: Value)
    ensures !Truthy(user) ==> user !in Funnels(rows)
    ensures Truthy(user) ==> (user in Funnels(rows) <==> UserSteps(rows, user) != [])
    ensures user in Funnels(rows) ==> Funnels(rows)[user] == UserSteps(rows, user)
    decreases |rows|
  {
    if rows != [] {
      FunnelOfUser(rows[..|rows| - 1], user);
    }
  }

  /** A user has steps exactly when one of the events carries their id. */
  lemma {:induction false} UserStepsFound(rows: seq<Value>, user: Value)
    ensures UserSteps(rows, user) != [] <==> exists i :: 0 <= i < |rows| && Get(rows[i], "user_id") == user
    decreases |rows|
  {
    if rows != [] {
      var init := rows[..|rows| - 1];
      UserStepsFound(init, user);
      if exists i :: 0 <= i < |init| && Get(init[i], "user_id") == user {
        var i :| 0 <= i < |init| && Get(init[i], "user_id") == user;
        assert rows[i] == init[i];
      }
      if exists i :: 0 <= i < |rows| && Get(rows[i], "user_id") == user {
        var i :| 0 <= i < |rows| && Get(rows[i], "user_id") == user;
        if i < |init| {
          assert init[i] == rows[i];
        }
      }
    }
  }

  datatype ConversionMetrics = ConversionMetrics(totalUsers: nat, funnelSteps: seq<Value>,
                                                 conversionRates: map<string, Value>)

  /** The `forEach` of `getConversionFunnel`, then the metrics, which report
      only the number of users. */
  method ConversionFunnelOf(rows: seq<Value>) returns (metrics: ConversionMetrics)
    ensures metrics == ConversionMetrics(|Funnels(rows).Keys|, [], map[])
  {
    var funnels: map<Value, seq<FunnelStep>> := map[];
    var k := 0;
    while k < |rows|
      invariant 0 <= k <= |rows|
      invariant funnels == Funnels(rows[..k])
    {
      assert rows[..k + 1][..k] == rows[..k] && rows[..k + 1][k] == rows[k];
      var user := Get(rows[k], "user_id");
      if Truthy(user) {
        if user !in funnels {
          funnels := funnels[user := [StepOf(rows[k])]];
        } else {
          funnels := funnels[user := funnels[user] + [StepOf(rows[k])]];
        }
      }
      k := k + 1;
    }
    assert rows[..k] == rows;
    metrics := ConversionMetrics(|funnels.Keys|, [], map[]);
  }

  // ---------------------------------------------------------------------
  // The service

  /** The event filter of a report: app and dates, and for some reports an
      event name. */
  function ReportFilter(appId: string, startDate: Option<string>, endDate: Option<string>,
                        eventName: Option<string>): (f: AnalyticsFilter)
    ensures f.appId == appId && f.startDate == startDate && f.endDate == endDate && f.eventName == eventName
    ensures f.userId.None? && f.deviceId.None? && f.platform.None? && f.appVersion.None?
    ensures f.limit.None? && f.offset.None?
  {
    AnalyticsFilter(appId, startDate, endDate, None, None, eventName, None, None, None, None)
  }

  class AnalyticsService {
    const repository: AnalyticsRepository

    constructor (repository: AnalyticsRepository)
      ensures this.repository == repository
    {
      this.repository := repository;
    }

    /** `executeCustomQuery`: the repository's answer, its length as
        `total`, and the query echoed back. */
    method ExecuteCustomQuery(appId: string, query: string, answer: Value, serverOk: bool)
      returns (r: Result<CustomQueryResult>)
      requires repository.store.Valid()
      modifies repository.store
      ensures repository.store.Valid()
      ensures CheckCustomQuery(appId, query).Err? ==> r == Err(CheckCustomQuery(appId, query).error)
      ensures CheckCustomQuery(appId, query).Ok? && !serverOk ==> r == Err(PlainError(ClickHouse.ServerError))
      ensures CheckCustomQuery(appId, query).Ok? && serverOk && LengthOf(answer).Err? ==> r == Err(LengthOf(answer).error)
      ensures CheckCustomQuery(appId, query).Ok? && serverOk && LengthOf(answer).Ok? ==>
        r == Ok(CustomQueryResult(answer, LengthOf(answer).value, query))
    {
      var data := repository.ExecuteCustomQuery(appId, query, answer, serverOk);
      if data.Err? {
        return Err(data.error);
      }
      var total := LengthOf(data.value);
      if total.Err? {
        return Err(total.error);
      }
      r := Ok(CustomQueryResult(data.value, total.value, query));
    }

    /** `getContentPerformance`: the `EPISODE_OPENED` events of the app,
        grouped by content. */
    method GetContentPerformance(appId: string, startDate: Option<string>, endDate: Option<string>,
                                 answer: Value, serverOk: bool)
      returns (r: Result<seq<ContentPerformance>>)
      requires repository.store.Valid()
      modifies repository.store
      ensures repository.store.Valid()
      ensures repository.store.statements ==
        old(repository.store.statements) + [EventsQuery(ReportFilter(appId, startDate, endDate, Some("EPISODE_OPENED")))]
      ensures r.Ok? <==> serverOk
      ensures r.Ok? ==> r.value == ContentReport(RowsOf(answer))
    {
      var events := repository.GetEvents(ReportFilter(appId, startDate, endDate, Some("EPISODE_OPENED")), answer, serverOk);
      if events.Err? {
        return Err(events.error);
      }
      var report := ContentPerformanceOf(events.value);
      r := Ok(report);
    }

    /** `getErrorAnalytics`: the `API_ERROR` events of the app, counted by
        type, endpoint and impact. */
    method GetErrorAnalytics(appId: string, startDate: Option<string>, endDate: Option<string>,
                             answer: Value, serverOk: bool)
      returns (r: Result<ErrorReport>)
      requires repository.store.Valid()
      modifies repository.store
      ensures repository.store.Valid()
      ensures repository.store.statements ==
        old(repository.store.statements) + [EventsQuery(ReportFilter(appId, startDate, endDate, Some("API_ERROR")))]
      ensures r.Ok? <==> serverOk
      ensures r.Ok? ==> r.value == ErrorReportOf(RowsOf(answer))
    {
      var events := repository.GetEvents(ReportFilter(appId, startDate, endDate, Some("API_ERROR")), answer, serverOk);
      if events.Err? {
        return Err(events.error);
      }
      var report := ErrorAnalyticsOf(events.value);
      r := Ok(report);
    }

    /** `getConversionFunnel`: all events of the app, grouped by user. */
    method GetConversionFunnel(appId: string, startDate: Option<string>, endDate: Option<string>,
                               answer: Value, serverOk: bool)
      returns (r: Result<ConversionMetrics>)
      requires repository.store.Valid()
      modifies repository.store
      ensures repository.store.Valid()
      ensures repository.store.statements ==
        old(repository.store.statements) + [EventsQuery(ReportFilter(appId, startDate, endDate, None))]
      ensures r.Ok? <==> serverOk
      ensures r.Ok? ==> r.value == ConversionMetrics(|Funnels(RowsOf(answer)).Keys|, [], map[])
    {
      var events := repository.GetEvents(ReportFilter(appId, startDate, endDate, None), answer, serverOk);
      if events.Err? {
        return Err(events.error);
      }
      var metrics := ConversionFunnelOf(events.value);
      r := Ok(metrics);
    }
  }

  /** The content and error reports ask only for their event name. */
  lemma {:induction false} ReportsFilterByEventName(appId: string, startDate: Option<string>, endDate: Option<string>)
    ensures Contains(EventsQuery(ReportFilter(appId, startDate, endDate, Some("EPISODE_OPENED"))),
                     " AND event_name = 'EPISODE_OPENED'")
    ensures Contains(EventsQuery(ReportFilter(appId, startDate, endDate, Some("API_ERROR"))),
                     " AND event_name = 'API_ERROR'")
  {
    var content := ReportFilter(appId, startDate, endDate, Some("EPISODE_OPENED"));
    var errors := ReportFilter(appId, startDate, endDate, Some("API_ERROR"));
    assert ConditionValues(content)[4] == Some("EPISODE_OPENED");
    assert ConditionValues(errors)[4] == Some("API_ERROR");
    assert ConditionLeads[4] + "EPISODE_OPENED" + "'" == " AND event_name = 'EPISODE_OPENED'";
    assert ConditionLeads[4] + "API_ERROR" + "'" == " AND event_name = 'API_ERROR'";
    EventsQueryFilters(content, 4);
    EventsQueryFilters(errors, 4);
  }
}
