/** `ClickHouseService` over an abstract catalog: a set of databases, the
    tables of each database with their rows, and the log of statements the
    service sends to the server. Whether a call to the server succeeds is a
    parameter (`serverOk`); the data a query returns is not part of this
    model except where the catalog determines it. */
module ClickHouse {
  import opened Text
  import Values
  import opened Errors

  // ---------------------------------------------------------------------
  // Names

  /** One character of `/^[a-zA-Z0-9_]+$/`. */
  predicate IsNameChar(c: char) {
    ('a' <= c <= 'z') || ('A' <= c <= 'Z') || ('0' <= c <= '9') || c == '_'
  }

  predicate AllNameChars(s: string) {
    forall i :: 0 <= i < |s| ==> IsNameChar(s[i])
  }

  /** The name check guarding every catalog operation: one or more letters,
      digits or underscores. */
  predicate IsSafeName(s: string): (ok: bool)
    ensures ok ==> s != "" && forall i :: 0 <= i < |s| ==> s[i] !in {'.', ';', '\'', '"', '`', ' ', '-'}
  {
    |s| >= 1 && AllNameChars(s)
  }

  const InvalidDatabaseName := "Invalid database name. Only alphanumeric characters and underscores are allowed."
  const InvalidTableName := "Invalid table name. Only alphanumeric characters and underscores are allowed."
  /** What a failed call to the server raises; its text is not modelled. */
  const ServerError := "ClickHouse server error"

  const TenantPrefix := "tenant_"
  const TestQuery := "SELECT 1 as test"

  /** `getDatabaseNameFromAppId`: the tenant database of an app. */
  function GetDatabaseNameFromAppId(appId: string): (name: string)
    ensures StartsWith(name, TenantPrefix) && name[|TenantPrefix|..] == appId
    ensures IsSafeName(name) <==> AllNameChars(appId)
  {
    var name := TenantPrefix + appId;
    assert forall i :: 0 <= i < |appId| ==> name[i + 7] == appId[i];
    name
  }

  /** Different apps get different tenant databases. */
  lemma {:induction false} TenantNameInjective(a: string, b: string)
    requires GetDatabaseNameFromAppId(a) == GetDatabaseNameFromAppId(b)
    ensures a == b
  {
    assert a == GetDatabaseNameFromAppId(a)[7..];
  }

  // ---------------------------------------------------------------------
  // The events table

  datatype ColumnType = UUID | Str | NullableStr | DateTime64 | Json

  datatype Column = Column(name: string, ctype: ColumnType, hasDefault: bool)

  datatype TableDef = TableDef(columns: seq<Column>, engine: string, partitionBy: string, orderBy: seq<string>)

  /** The table `createEventsTable` declares. */
  const EventsTable := TableDef(
    [Column("id", UUID, true), Column("app_id", Str, false), Column("event_name", Str, false),
     Column("user_id", NullableStr, false), Column("device_id", NullableStr, false),
     Column("session_id", Str, false), Column("timestamp", DateTime64, false),
     Column("properties", Json, false), Column("platform", Str, false), Column("version", Str, false),
     Column("created_at", DateTime64, true)],
    "MergeTree", "toYYYYMM(timestamp)", ["app_id", "event_name", "timestamp"])

  /** Only `user_id` and `device_id` are nullable. */
  lemma {:induction false} EventsTableNullable()
    ensures forall i :: 0 <= i < |EventsTable.columns| ==> (EventsTable.columns[i].ctype == NullableStr <==> i == 3 || i == 4)
    ensures EventsTable.columns[3].name == "user_id" && EventsTable.columns[4].name == "device_id"
  {
  }

  /** `id` and `created_at` are filled by the server. */
  lemma {:induction false} EventsTableDefaults()
    ensures forall i :: 0 <= i < |EventsTable.columns| ==> (EventsTable.columns[i].hasDefault <==> i == 0 || i == 10)
    ensures EventsTable.columns[0].name == "id" && EventsTable.columns[10].name == "created_at"
  {
  }

  /** Rows are partitioned by month and ordered by app, event name and
      time. */
  lemma {:induction false} EventsTableLayout()
    ensures EventsTable.partitionBy == "toYYYYMM(timestamp)"
    ensures EventsTable.orderBy == ["app_id", "event_name", "timestamp"]
  {
  }

  /** The text `JSON.stringify` makes of a value, kept symbolic. */
  datatype JsonText = Stringified(value: Values.Value)

  /** A row as the event processor inserts it. The server adds `id`,
      `device_id` (NULL) and `created_at`. */
  datatype EventRow = EventRow(
    appId: string, eventName: string, userId: Option<string>, sessionId: string,
    timestamp: string, properties: JsonText, platform: string, version: string)

  datatype Table = Table(def: TableDef, rows: seq<EventRow>)

  /** What `getTableInfo` returns about a table. The size on disk and the
      time of the last change of its metadata are the server's own. */
  datatype TableInfo = TableInfo(name: string, engine: string, totalRows: nat, totalBytes: nat, metadataModificationTime: string)

  function CreateDatabaseStatement(name: string): string {
    "CREATE DATABASE IF NOT EXISTS " + name
  }

  function CreateTableStatement(db: string, table: string): string {
    "CREATE TABLE IF NOT EXISTS " + db + "." + table
  }

  /** `executeQueryInDatabase` prefixes the query with a `USE` of the given
      name, which is not checked. */
  function QueryInDatabase(databaseName: string, query: string): (statement: string)
    ensures StartsWith(statement, "USE " + databaseName + "; ")
  {
    "USE " + databaseName + "; " + query
  }

  /** Whatever the name holds reaches the server, even text that ends the
      `USE` and starts another statement. */
  lemma {:induction false} QueryInDatabaseUnchecked(databaseName: string, query: string)
    ensures Contains(QueryInDatabase(databaseName, query), databaseName)
    ensures !IsSafeName(databaseName) ==> StartsWith(QueryInDatabase(databaseName, query), "USE " + databaseName)
  {
    var s := QueryInDatabase(databaseName, query);
    assert s[4..4 + |databaseName|] == databaseName;
    ContainsAt(s, databaseName, 4);
  }

  class Store {
    var databases: set<string>
    var tables: map<(string, string), Table>
    var statements: seq<string>

    /** Every table lives in a database that exists. */
    ghost predicate Valid()
      reads this
    {
      forall key :: key in tables ==> key.0 in databases
    }

    constructor ()
      ensures Valid() && databases == {} && tables == map[] && statements == []
    {
      databases := {};
      tables := map[];
      statements := [];
    }

    /** `createDatabase`: an unsafe name throws before any statement is sent.
        Otherwise one `CREATE DATABASE IF NOT EXISTS` is sent; when the server
        accepts it the database exists afterwards, and a database that
        already existed is left as it was. */
    method CreateDatabase(name: string, serverOk: bool) returns (r: Result<()>)
      requires Valid()
      modifies this
      ensures Valid() && tables == old(tables)
      ensures !IsSafeName(name) ==> r == Err(PlainError(InvalidDatabaseName)) && statements == old(statements) && databases == old(databases)
      ensures IsSafeName(name) ==> statements == old(statements) + [CreateDatabaseStatement(name)]
      ensures IsSafeName(name) && serverOk ==> r.Ok? && databases == old(databases) + {name}
      ensures IsSafeName(name) && !serverOk ==> r == Err(PlainError(ServerError)) && databases == old(databases)
    {
      if !IsSafeName(name) {
        return Err(PlainError(InvalidDatabaseName));
      }
      statements := statements + [CreateDatabaseStatement(name)];
      if !serverOk {
        return Err(PlainError(ServerError));
      }
      databases := databases + {name};
      r := Ok(());
    }

    /** `createEventsTable`: both names are checked before anything is sent.
        Then one `CREATE TABLE IF NOT EXISTS` is sent; the server refuses it
        when the database does not exist. An existing table, rows included,
        is left as it was. The table name defaults to `events` at the call
        sites. */
    method CreateEventsTable(databaseName: string, tableName: string, serverOk: bool) returns (r: Result<()>)
      requires Valid()
      modifies this
      ensures Valid() && databases == old(databases)
      ensures !IsSafeName(databaseName) ==> r == Err(PlainError(InvalidDatabaseName))
      ensures IsSafeName(databaseName) && !IsSafeName(tableName) ==> r == Err(PlainError(InvalidTableName))
      ensures !(IsSafeName(databaseName) && IsSafeName(tableName)) ==> statements == old(statements) && tables == old(tables)
      ensures IsSafeName(databaseName) && IsSafeName(tableName) ==>
        statements == old(statements) + [CreateTableStatement(databaseName, tableName)]
      ensures r.Ok? <==> IsSafeName(databaseName) && IsSafeName(tableName) && serverOk && databaseName in databases
      ensures r.Ok? ==> (databaseName, tableName) in tables
      ensures r.Ok? && (databaseName, tableName) in old(tables) ==> tables == old(tables)
      ensures r.Ok? && (databaseName, tableName) !in old(tables) ==>
        tables == old(tables)[(databaseName, tableName) := Table(EventsTable, [])]
      ensures r.Err? ==> tables == old(tables)
    {
      if !IsSafeName(databaseName) {
        return Err(PlainError(InvalidDatabaseName));
      }
      if !IsSafeName(tableName) {
        return Err(PlainError(InvalidTableName));
      }
      statements := statements + [CreateTableStatement(databaseName, tableName)];
      if !serverOk || databaseName !in databases {
        return Err(PlainError(ServerError));
      }
      if (databaseName, tableName) !in tables {
        tables := tables[(databaseName, tableName) := Table(EventsTable, [])];
      }
      r := Ok(());
    }

    /** `testConnection`: sends `SELECT 1 as test` and reports whether the
        first row the server answers with has `test` equal to 1; a failed
        call gives false instead of throwing. */
    method TestConnection(answer: Values.Value, serverOk: bool) returns (ok: bool)
      requires Valid()
      modifies this
      ensures Valid() && databases == old(databases) && tables == old(tables)
      ensures statements == old(statements) + [TestQuery]
      ensures ok <==> serverOk && answer.Arr? && |answer.elems| > 0 && Values.Get(answer.elems[0], "test") == Values.Num(1)
    {
      var r := ExecuteQuery(TestQuery, answer, serverOk);
      if r.Err? {
        return false;
      }
      var data := r.value;
      ok := data.Arr? && |data.elems| > 0 && Values.Get(data.elems[0], "test") == Values.Num(1);
    }

    /** `tableExists`: never throws; an unsafe name or a failed query gives
        false, otherwise whether the catalog has the table. */
    function TableExists(databaseName: string, tableName: string, serverOk: bool): (exists_: bool)
      reads this
      ensures exists_ <==> IsSafeName(databaseName) && IsSafeName(tableName) && serverOk && (databaseName, tableName) in tables
    {
      if !IsSafeName(databaseName) || !IsSafeName(tableName) || !serverOk then false
      else CountTables(databaseName, tableName) > 0
    }

    /** `count()` over `system.tables` for one name pair. */
    function CountTables(databaseName: string, tableName: string): (n: nat)
      reads this
      ensures n <= 1 && (n == 1 <==> (databaseName, tableName) in tables)
    {
      if (databaseName, tableName) in tables then 1 else 0
    }

    /** `databaseExists`: never throws; an unsafe name or a failed query
        gives false, otherwise whether the catalog has the database. */
    function DatabaseExists(databaseName: string, serverOk: bool): (exists_: bool)
      reads this
      ensures exists_ <==> IsSafeName(databaseName) && serverOk && databaseName in databases
    {
      if !IsSafeName(databaseName) || !serverOk then false
      else (if databaseName in databases then 1 else 0) > 0
    }

    /** `getTableInfo`: null for an unsafe name, a failed query or a missing
        table; otherwise the first (only) matching row of `system.tables`.
        `totalBytes` and `modifiedAt` stand for what the server reports in
        the columns the catalog does not hold. */
    function GetTableInfo(databaseName: string, tableName: string, serverOk: bool, totalBytes: nat, modifiedAt: string)
      : (info: Option<TableInfo>)
      reads this
      ensures info.Some? <==> TableExists(databaseName, tableName, serverOk)
      ensures info.Some? ==> info.value == TableInfo(tableName, tables[(databaseName, tableName)].def.engine,
                                                     |tables[(databaseName, tableName)].rows|, totalBytes, modifiedAt)
    {
      if !IsSafeName(databaseName) || !IsSafeName(tableName) || !serverOk then None
      else if (databaseName, tableName) !in tables then None
      else
        var t := tables[(databaseName, tableName)];
        Some(TableInfo(tableName, t.def.engine, |t.rows|, totalBytes, modifiedAt))
    }

    /** `executeQuery`: the text goes to the server as given. Evaluating
        SQL is not part of this model: what the server answers with is the
        parameter `answer`. A failure is rethrown. */
    method ExecuteQuery(query: string, answer: Values.Value, serverOk: bool) returns (r: Result<Values.Value>)
      requires Valid()
      modifies this
      ensures Valid() && databases == old(databases) && tables == old(tables)
      ensures statements == old(statements) + [query]
      ensures r.Ok? <==> serverOk
      ensures r.Ok? ==> r.value == answer
      ensures r.Err? ==> r.error == PlainError(ServerError)
    {
      statements := statements + [query];
      if !serverOk {
        return Err(PlainError(ServerError));
      }
      r := Ok(answer);
    }

    /** `executeQueryInDatabase`: the same, with the `USE` prefix and no
        check of the database name. */
    method ExecuteQueryInDatabase(databaseName: string, query: string, answer: Values.Value, serverOk: bool)
      returns (r: Result<Values.Value>)
      requires Valid()
      modifies this
      ensures Valid() && databases == old(databases) && tables == old(tables)
      ensures statements == old(statements) + [QueryInDatabase(databaseName, query)]
      ensures r.Ok? <==> serverOk
      ensures r.Ok? ==> r.value == answer
      ensures r.Err? ==> r.error == PlainError(ServerError)
    {
      r := ExecuteQuery(QueryInDatabase(databaseName, query), answer, serverOk);
    }

    /** `insert`: appends the rows to `<databaseName>.<tableName>`; a failed
        call or a missing table throws and inserts nothing. */
    method Insert(databaseName: string, tableName: string, rows: seq<EventRow>, serverOk: bool) returns (r: Result<()>)
      requires Valid()
      modifies this
      ensures Valid() && databases == old(databases) && statements == old(statements)
      ensures r.Ok? <==> serverOk && (databaseName, tableName) in old(tables)
      ensures r.Ok? ==> tables == old(tables)[(databaseName, tableName) :=
                          old(tables)[(databaseName, tableName)].(rows := old(tables)[(databaseName, tableName)].rows + rows)]
      ensures r.Err? ==> tables == old(tables)
    {
      if !serverOk || (databaseName, tableName) !in tables {
        return Err(PlainError(ServerError));
      }
      var t := tables[(databaseName, tableName)];
      tables := tables[(databaseName, tableName) := t.(rows := t.rows + rows)];
      r := Ok(());
    }
  }
}
