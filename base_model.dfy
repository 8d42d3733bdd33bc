// BaseModel of app/Models/BaseModel.php: the connection chosen from the
// URL, the query-builder state the fluent methods append to and the
// terminal operations clear, and the CRUD operations on the mysqli
// connection. On the "pdo" side the connection is null, so every
// operation that reaches it ends the request with an Error.
module Models {
  import opened Wrappers
  import opened Strings
  import opened Php
  import opened Tables
  import opened Sql
  import opened Db

  /** How an operation ends: with its value, or with an uncaught throw (the Error of a method call on null, an Exception). */
  datatype Outcome<T> = Done(value: T) | Fatal

  /** A two-character version token "v1", "v2" or "v3". */
  predicate VersionAt(url: string, i: int)
  {
    0 <= i && i + 1 < |url| && url[i] == 'v' && '1' <= url[i + 1] <= '3'
  }

  /** detectApiVersion: the leftmost "v1", "v2" or "v3" anywhere in the raw url, else v1. */
  function DetectApiVersion(url: string): (v: string)
    ensures |v| == 2 && v[0] == 'v' && '1' <= v[1] <= '3'
    decreases |url|
  {
    if |url| < 2 then "v1"
    else if VersionAt(url, 0) then url[..2]
    else DetectApiVersion(url[1..])
  }

  /** A url with no version token anywhere is read as v1. */
  lemma {:induction false} DetectWithoutToken(url: string)
    requires forall i :: 0 <= i < |url| ==> !VersionAt(url, i)
    ensures DetectApiVersion(url) == "v1"
    decreases |url|
  {
    if |url| >= 2 {
      assert !VersionAt(url, 0);
      forall i | 0 <= i < |url| - 1
        ensures !VersionAt(url[1..], i)
      {
        assert !VersionAt(url, i + 1);
      }
      DetectWithoutToken(url[1..]);
    }
  }

  /** The leftmost token wins: a token after a prefix holding none is the version. */
  lemma {:induction false} DetectFirstToken(a: string, d: char, b: string)
    requires forall i :: 0 <= i < |a| ==> !VersionAt(a + ['v', d] + b, i)
    requires '1' <= d <= '3'
    ensures DetectApiVersion(a + ['v', d] + b) == ['v', d]
    decreases |a|
  {
    var url := a + ['v', d] + b;
    if a == [] {
      assert url[..2] == ['v', d];
    } else {
      assert !VersionAt(url, 0);
      assert url[1..] == a[1..] + ['v', d] + b;
      forall i | 0 <= i < |a| - 1
        ensures !VersionAt(a[1..] + ['v', d] + b, i)
      {
        assert !VersionAt(url, i + 1);
      }
      DetectFirstToken(a[1..], d, b);
    }
  }

  /** orderBy's direction: upper-cased, and ASC unless it is ASC or DESC. */
  function Direction(direction: string): (r: string)
    ensures r == "ASC" || r == "DESC"
    ensures ToUpper(direction) in ["ASC", "DESC"] ==> r == ToUpper(direction)
  {
    var d := ToUpper(direction);
    if d == "ASC" || d == "DESC" then d else "ASC"
  }

  /** create's data: with timestamps on, both stamps are set to now whatever the caller gave. */
  function Stamped(timestamps: bool, data: Dict, now: string): (row: Dict)
    ensures timestamps ==> Lookup(row, StrKey("created_at")) == Some(Str(now)) &&
                           Lookup(row, StrKey("updated_at")) == Some(Str(now))
    ensures timestamps ==> forall k :: k != StrKey("created_at") && k != StrKey("updated_at") ==>
                           Lookup(row, k) == Lookup(data, k)
    ensures !timestamps ==> row == data
  {
    if timestamps then
      var d1 := Put(data, StrKey("created_at"), Str(now));
      PutEntries(data, StrKey("created_at"), Str(now));
      PutEntries(d1, StrKey("updated_at"), Str(now));
      Put(d1, StrKey("updated_at"), Str(now))
    else data
  }

  /** update's data: updated_at is added only when the caller left it unset. */
  function Touched(timestamps: bool, data: Dict, now: string): (row: Dict)
    ensures Isset(data, StrKey("updated_at")) || !timestamps ==> row == data
    ensures timestamps && !Isset(data, StrKey("updated_at")) ==>
      Lookup(row, StrKey("updated_at")) == Some(Str(now)) &&
      forall k :: k != StrKey("updated_at") ==> Lookup(row, k) == Lookup(data, k)
  {
    if timestamps && !Isset(data, StrKey("updated_at")) then
      PutEntries(data, StrKey("updated_at"), Str(now));
      Put(data, StrKey("updated_at"), Str(now))
    else data
  }

  /** The row an id selects: MySQL compares the quoted id with the integer key numerically. */
  function RowKey(id: Value): int
  {
    ToInt(id)
  }

  /** find's answer on an accepted query: the row, where an empty row counts as none. */
  function Found(s: Store, table: string, id: Value): (r: Option<Dict>)
    ensures r.Some? ==> RowAt(s, table, RowKey(id)) == r && r.value != []
    ensures RowAt(s, table, RowKey(id)).None? ==> r.None?
  {
    match RowAt(s, table, RowKey(id))
    case None => None
    case Some(row) => if row == [] then None else Some(row)
  }

  /** The rows a builder query returns: none when the query failed. */
  function RowsOf(reply: Option<seq<Dict>>): seq<Dict>
  {
    if reply.None? then [] else reply.value
  }

  /**
   * The number a COUNT or SUM query answers: `(int)($row[column] ?? 0)`,
   * which is 0 when the query failed or gave no row.
   */
  function CountOf(reply: Option<seq<Dict>>, column: string): (n: int)
    ensures reply.None? || reply.value == [] ==> n == 0
  {
    if reply.None? || reply.value == [] then 0
    else ToInt(Coalesce(reply.value[0], StrKey(column), Int(0)))
  }

  /** `$row ?: null` on the first row of a query: none when it failed, had no row or an empty one. */
  function FetchedRow(reply: Option<seq<Dict>>): (r: Option<Dict>)
    ensures r.Some? <==> reply.Some? && reply.value != [] && reply.value[0] != []
    ensures r.Some? ==> r.value == reply.value[0]
  {
    if reply.None? || reply.value == [] || reply.value[0] == [] then None else Some(reply.value[0])
  }

  /** `$row[$column]`: the stored value, or null for a missing column. */
  function Field(row: Dict, column: string): (v: Value)
    ensures Lookup(row, StrKey(column)).Some? ==> v == Lookup(row, StrKey(column)).value
    ensures Lookup(row, StrKey(column)).None? ==> v == Null
  {
    match Lookup(row, StrKey(column))
    case Some(v) => v
    case None => Null
  }

  /**
   * A hand-written, multi-line statement of a domain model, standing for
   * its SQL text: the method that builds it and the values it
   * interpolates, in order. What MySQL answers comes in as the reply.
   */
  function HandWritten(query: string, args: seq<string>): string
  {
    query + "(" + Implode(args, ", ") + ")"
  }

  /** paginate's page: 1 up to offset 0, else floor(offset / perPage) + 1. */
  function PageOf(offset: int, perPage: int): (page: int)
    requires perPage > 0
    ensures page >= 1
    ensures offset > 0 ==> (page - 1) * perPage <= offset < page * perPage
  {
    if offset > 0 then offset / perPage + 1 else 1
  }

  /** An offset that starts a page, (page - 1) * perPage, leads paginate back to that page. */
  lemma PageOfOffset(page: int, perPage: int)
    requires page >= 1 && perPage > 0
    ensures PageOf((page - 1) * perPage, perPage) == page
  {
    var offset := (page - 1) * perPage;
    if page > 1 {
      var p := PageOf(offset, perPage);
      MulCancelLe(p - 1, page - 1, perPage);
      MulCancelLe(page, p, perPage);
    }
  }

  /** A positive factor can be cancelled from both sides of <=. */
  lemma MulCancelLe(a: int, b: int, c: int)
    requires c > 0 && a * c <= b * c
    ensures a <= b
  {
    assert (b - a) * c == b * c - a * c;
  }

  /** ceil(total / perPage). */
  function CeilDiv(total: int, perPage: int): (pages: int)
    requires perPage > 0
    ensures (pages - 1) * perPage < total <= pages * perPage
  {
    (total + perPage - 1) / perPage
  }

  /** The array paginate returns; its keys are distinct, so it is its entries in order. */
  function PageBody(data: seq<Dict>, total: int, perPage: int, offset: int): Dict
    requires perPage > 0
  {
    [Entry(StrKey("data"), Arr(ListOf(seq(|data|, i requires 0 <= i < |data| => Arr(data[i]))))),
     Entry(StrKey("total"), Int(total)),
     Entry(StrKey("perPage"), Int(perPage)),
     Entry(StrKey("page"), Int(PageOf(offset, perPage))),
     Entry(StrKey("totalPages"), Int(CeilDiv(total, perPage)))]
  }

  /** The fetch_assoc loop: every row of the result, in order. */
  method FetchRows(result: seq<Dict>) returns (rows: seq<Dict>)
    ensures rows == result
  {
    rows := [];
    var i := 0;
    while i < |result|
      invariant 0 <= i <= |result|
      invariant rows == result[..i]
    {
      rows := rows + [result[i]];
      i := i + 1;
    }
  }

  class BaseModel {
    const table: string
    const primaryKey: string
    const timestamps: bool
    const driver: Driver
    const apiVersion: string
    const connectionType: string
    const connection: Connection?
    var where: seq<Condition>
    var orderBy: seq<string>
    var limit: Option<int>
    var offset: Option<int>

    /** initializeConnection's choice: mysqli with a handle for v1, pdo with none otherwise. */
    predicate Valid()
    {
      connectionType == (if apiVersion == "v1" then "mysqli" else "pdo") &&
      (connection != null <==> connectionType == "mysqli")
    }

    /** The builder as resetQueryBuilder leaves it. */
    predicate Cleared()
      reads this
    {
      where == [] && orderBy == [] && limit.None? && offset.None?
    }

    /**
     * The constructor, on a Database that getInstance handed back and so
     * has its mysqli side open: the version comes from the raw url, and
     * getMySQLi returns the open handle while getPDO returns null.
     */
    constructor (table: string, primaryKey: string, timestamps: bool, rawUrl: string,
                 db: Database, driver: Driver)
      requires table != "" && table != "0"
      requires db.Valid() && db.mysqliInitialized
      ensures Valid() && Cleared()
      ensures this.table == table && this.primaryKey == primaryKey && this.timestamps == timestamps
      ensures this.driver == driver && apiVersion == DetectApiVersion(rawUrl)
      ensures connection == (if apiVersion == "v1" then db.mysqli else null)
    {
      this.table := table;
      this.primaryKey := primaryKey;
      this.timestamps := timestamps;
      this.driver := driver;
      var version := DetectApiVersion(rawUrl);
      apiVersion := version;
      if version == "v1" {
        connection := db.mysqli;
        connectionType := "mysqli";
      } else {
        connection := null;
        connectionType := "pdo";
      }
      where := [];
      orderBy := [];
      limit := None;
      offset := None;
    }

    /**
     * __construct seen from a subclass: a table name PHP finds empty ("" or
     * "0") throws before the connection is touched; any other builds the
     * model as the constructor does.
     */
    static method Construct(table: string, primaryKey: string, timestamps: bool, rawUrl: string,
                            db: Database, driver: Driver) returns (r: Outcome<BaseModel>)
      requires db.Valid() && db.mysqliInitialized
      ensures r.Fatal? <==> table == "" || table == "0"
      ensures r.Done? ==> (
        fresh(r.value) && r.value.Valid() && r.value.Cleared() &&
        r.value.table == table && r.value.primaryKey == primaryKey && r.value.timestamps == timestamps &&
        r.value.driver == driver && r.value.apiVersion == DetectApiVersion(rawUrl) &&
        r.value.connection == (if r.value.apiVersion == "v1" then db.mysqli else null))
    {
      if table == "" || table == "0" {
        return Fatal;
      }
      var m := new BaseModel(table, primaryKey, timestamps, rawUrl, db, driver);
      r := Done(m);
    }

    /** where: one AND-condition at the end of the list; the same object is returned. */
    method Where(field: string, operator: string, value: Value) returns (self: BaseModel)
      modifies this
      ensures self == this
      ensures where == old(where) + [Condition(field, operator, value)]
      ensures orderBy == old(orderBy) && limit == old(limit) && offset == old(offset)
    {
      where := where + [Condition(field, operator, value)];
      self := this;
    }

    /** whereIn: an IN condition holding the array. */
    method WhereIn(field: string, values: Dict) returns (self: BaseModel)
      modifies this
      ensures self == this
      ensures where == old(where) + [Condition(field, "IN", Arr(values))]
      ensures orderBy == old(orderBy) && limit == old(limit) && offset == old(offset)
    {
      where := where + [Condition(field, "IN", Arr(values))];
      self := this;
    }

    /** orderBy: "field DIR" at the end of the list. */
    method OrderBy(field: string, direction: string) returns (self: BaseModel)
      modifies this
      ensures self == this
      ensures orderBy == old(orderBy) + [field + " " + Direction(direction)]
      ensures where == old(where) && limit == old(limit) && offset == old(offset)
    {
      var dir := ToUpper(direction);
      if !(dir == "ASC" || dir == "DESC") {
        dir := "ASC";
      }
      orderBy := orderBy + [field + " " + dir];
      self := this;
    }

    /** limit: writes fields that no operation reads. */
    method Limit(limit: Value, offset: Value) returns (self: BaseModel)
      modifies this
      ensures self == this
      ensures this.limit == Some(ToInt(limit))
      ensures this.offset == if offset == Null then old(this.offset) else Some(ToInt(offset))
      ensures where == old(where) && orderBy == old(orderBy)
    {
      this.limit := Some(ToInt(limit));
      if offset != Null {
        this.offset := Some(ToInt(offset));
      }
      self := this;
    }

    method ResetQueryBuilder()
      modifies this
      ensures Cleared()
    {
      where := [];
      orderBy := [];
      limit := None;
      offset := None;
    }

    /** buildWhereClause on the mysqli connection. */
    method BuildWhereClause() returns (clause: string)
      ensures clause == WhereClause(driver, where)
    {
      if where == [] {
        return "";
      }
      var conditions: seq<string> := [];
      var i := 0;
      while i < |where|
        invariant 0 <= i <= |where|
        invariant |conditions| == i
        invariant forall j :: 0 <= j < i ==> conditions[j] == ConditionText(driver, where[j])
      {
        var w := where[i];
        if w.operator == "IN" {
          var escaped: seq<string> := [];
          if w.value.Arr? {
            var vals := w.value.entries;
            var k := 0;
            while k < |vals|
              invariant 0 <= k <= |vals|
              invariant escaped == InValues(driver, w.value)[..k]
            {
              escaped := escaped + [Rendered(driver, vals[k].val)];
              k := k + 1;
            }
            assert InValues(driver, w.value)[..k] == InValues(driver, w.value);
          }
          assert escaped == InValues(driver, w.value);
          conditions := conditions + [w.field + " IN (" + Implode(escaped, ", ") + ")"];
        } else {
          conditions := conditions + [w.field + " " + w.operator + " " + Rendered(driver, w.value)];
        }
        i := i + 1;
      }
      assert conditions == Conditions(driver, where);
      clause := " WHERE " + Implode(conditions, " AND ");
    }

    /** The driver's counters, which only an accepted insert moves. */
    twostate predicate CountersKept()
      reads connection
    {
      connection != null ==>
        connection.insertId == old(connection.insertId) && connection.affectedRows == old(connection.affectedRows)
    }

    /** The statements were sent after sent0 and the database is still store0. */
    predicate SentAfter(sent0: seq<string>, store0: Store, statements: seq<string>)
      reads connection
    {
      connection != null && connection.sent == sent0 + statements && connection.store == store0
    }

    /** create's INSERT was sent after sent0; an accepted one stored the stamped row. */
    predicate CreatedAfter(sent0: seq<string>, store0: Store, data: Dict, now: string, accepted: bool)
      reads connection
    {
      var row := Stamped(timestamps, data, now);
      connection != null &&
      connection.sent == sent0 + [InsertSql(table, Columns(row), WrittenValues(driver, row))] &&
      connection.store == if accepted then Insert(store0, table, primaryKey, row) else store0
    }

    /** update's UPDATE was sent after sent0; an accepted one changed the selected row. */
    predicate UpdatedAfter(sent0: seq<string>, store0: Store, id: Value, data: Dict, now: string, accepted: bool)
      reads connection
    {
      var row := Touched(timestamps, data, now);
      connection != null &&
      connection.sent == sent0 + [UpdateSql(table, primaryKey, driver, id, SetParts(driver, row))] &&
      connection.store == if accepted then UpdateRow(store0, table, RowKey(id), row) else store0
    }

    /** delete's DELETE was sent after sent0; an accepted one removed the selected row. */
    predicate DeletedAfter(sent0: seq<string>, store0: Store, id: Value, accepted: bool)
      reads connection
    {
      connection != null &&
      connection.sent == sent0 + [DeleteSql(table, primaryKey, driver, id)] &&
      connection.store == if accepted then DeleteRow(store0, table, RowKey(id)) else store0
    }

    /** find: the row whose key the id selects; a failed query gives null. */
    method Find(id: Value, accepted: bool) returns (r: Outcome<Option<Dict>>)
      requires Valid()
      modifies connection
      ensures connectionType == "pdo" ==> r == Fatal
      ensures connectionType == "mysqli" ==>
        SentAfter(old(connection.sent), old(connection.store), [FindSql(table, primaryKey, driver, id)]) &&
        CountersKept() && r == Done(if accepted then Found(connection.store, table, id) else None)
    {
      if connectionType != "mysqli" {
        return Fatal;
      }
      var sql := FindSql(table, primaryKey, driver, id);
      connection.sent := connection.sent + [sql];
      if !accepted {
        return Done(None);
      }
      r := Done(Found(connection.store, table, id));
    }

    /**
     * findAll: the builder's WHERE and ORDER BY, and LIMIT/OFFSET from the
     * arguments only; the builder is cleared on success and failure.
     */
    method FindAll(rowLimit: Value, rowOffset: Value, reply: Option<seq<Dict>>) returns (r: Outcome<seq<Dict>>)
      requires Valid()
      modifies this, connection
      ensures connectionType == "pdo" ==> r == Fatal
      ensures connectionType == "mysqli" ==>
        SentAfter(old(connection.sent), old(connection.store),
                  [SelectSql(table, driver, old(where), old(orderBy), rowLimit, rowOffset)]) &&
        CountersKept() && r == Done(RowsOf(reply)) && Cleared()
    {
      if connectionType != "mysqli" {
        return Fatal;
      }
      var whereClause := BuildWhereClause();
      var limitText := LimitClause(rowLimit, rowOffset);
      var sql := SelectHead(table) + whereClause + OrderByClause(orderBy) + limitText;
      assert sql == SelectSql(table, driver, where, orderBy, rowLimit, rowOffset);
      connection.sent := connection.sent + [sql];
      if reply.None? {
        ResetQueryBuilder();
        return Done([]);
      }
      var rows := FetchRows(reply.value);
      ResetQueryBuilder();
      r := Done(rows);
    }

    /**
     * create: the stamped data becomes one INSERT with its columns and
     * values in the data's order; an accepted insert returns the new id.
     */
    method Create(data: Dict, now: string, accepted: bool) returns (r: Outcome<Value>)
      requires Valid()
      modifies connection
      ensures connectionType == "pdo" ==> r == Fatal
      ensures connectionType == "mysqli" ==> (
        var id := NextId(old(connection.store), table);
        CreatedAfter(old(connection.sent), old(connection.store), data, now, accepted) &&
        connection.affectedRows == old(connection.affectedRows) &&
        (accepted ==> r == Done(Int(id)) && connection.insertId == id) &&
        (!accepted ==> r == Done(Bool(false)) && connection.insertId == old(connection.insertId)))
    {
      if connectionType != "mysqli" {
        return Fatal;
      }
      var row := Stamped(timestamps, data, now);
      var columns := Columns(row);
      var values := Values(row);
      var escaped: seq<string> := [];
      var i := 0;
      while i < |values|
        invariant 0 <= i <= |values|
        invariant escaped == WrittenValues(driver, row)[..i]
      {
        var v := values[i];
        if v == Null {
          escaped := escaped + ["NULL"];
        } else if IsNumeric(v) {
          escaped := escaped + [ToStr(v)];
        } else {
          escaped := escaped + ["'" + driver.escape(ToStr(v)) + "'"];
        }
        i := i + 1;
      }
      assert escaped == WrittenValues(driver, row);
      var sql := InsertSql(table, columns, escaped);
      connection.sent := connection.sent + [sql];
      if !accepted {
        return Done(Bool(false));
      }
      var id := NextId(connection.store, table);
      connection.store := Insert(connection.store, table, primaryKey, row);
      connection.insertId := id;
      r := Done(Int(id));
    }

    /**
     * update: one `column = value` per entry of the touched data, in
     * order; an accepted update changes those columns of the selected row.
     */
    method Update(id: Value, data: Dict, now: string, accepted: bool) returns (r: Outcome<bool>)
      requires Valid()
      modifies connection
      ensures connectionType == "pdo" ==> r == Fatal
      ensures connectionType == "mysqli" ==>
        UpdatedAfter(old(connection.sent), old(connection.store), id, data, now, accepted) &&
        CountersKept() && r == Done(accepted)
    {
      if connectionType != "mysqli" {
        return Fatal;
      }
      var row := Touched(timestamps, data, now);
      var setParts: seq<string> := [];
      var i := 0;
      while i < |row|
        invariant 0 <= i <= |row|
        invariant setParts == SetParts(driver, row)[..i]
      {
        var column := KeyString(row[i].key);
        var v := row[i].val;
        var written;
        if v == Null {
          written := "NULL";
        } else if IsNumeric(v) {
          written := ToStr(v);
        } else {
          written := "'" + driver.escape(ToStr(v)) + "'";
        }
        setParts := setParts + [column + " = " + written];
        i := i + 1;
      }
      assert setParts == SetParts(driver, row);
      var sql := UpdateSql(table, primaryKey, driver, id, setParts);
      connection.sent := connection.sent + [sql];
      if !accepted {
        return Done(false);
      }
      connection.store := UpdateRow(connection.store, table, RowKey(id), row);
      r := Done(true);
    }

    /** delete: an accepted delete removes the selected row and returns true. */
    method Delete(id: Value, accepted: bool) returns (r: Outcome<bool>)
      requires Valid()
      modifies connection
      ensures connectionType == "pdo" ==> r == Fatal
      ensures connectionType == "mysqli" ==>
        DeletedAfter(old(connection.sent), old(connection.store), id, accepted) &&
        CountersKept() && r == Done(accepted)
    {
      if connectionType != "mysqli" {
        return Fatal;
      }
      var sql := DeleteSql(table, primaryKey, driver, id);
      connection.sent := connection.sent + [sql];
      if !accepted {
        return Done(false);
      }
      connection.store := DeleteRow(connection.store, table, RowKey(id));
      r := Done(true);
    }

    /** exists: find found a row. */
    method Exists(id: Value, accepted: bool) returns (r: Outcome<bool>)
      requires Valid()
      modifies connection
      ensures connectionType == "pdo" ==> r == Fatal
      ensures connectionType == "mysqli" ==>
        SentAfter(old(connection.sent), old(connection.store), [FindSql(table, primaryKey, driver, id)]) &&
        CountersKept() && r == Done(accepted && Found(connection.store, table, id).Some?)
    {
      var found := Find(id, accepted);
      if found.Fatal? {
        return Fatal;
      }
      r := Done(found.value.Some?);
    }

    /** count: the builder's WHERE only; the builder is cleared either way. */
    method Count(reply: Option<seq<Dict>>) returns (r: Outcome<int>)
      requires Valid()
      modifies this, connection
      ensures connectionType == "pdo" ==> r == Fatal
      ensures connectionType == "mysqli" ==>
        SentAfter(old(connection.sent), old(connection.store), [CountSql(table, driver, old(where))]) &&
        CountersKept() && r == Done(CountOf(reply, "total")) && Cleared()
    {
      if connectionType != "mysqli" {
        return Fatal;
      }
      var whereClause := BuildWhereClause();
      var sql := "SELECT COUNT(*) as total FROM " + table + whereClause;
      connection.sent := connection.sent + [sql];
      if reply.None? {
        ResetQueryBuilder();
        return Done(0);
      }
      var count := CountOf(reply, "total");
      ResetQueryBuilder();
      r := Done(count);
    }

    /**
     * paginate: count clears the builder, and limit's fields are never
     * read, so the page query is the bare SELECT of the table.
     */
    method Paginate(perPage: int, rowOffset: int, countReply: Option<seq<Dict>>, pageReply: Option<seq<Dict>>)
      returns (r: Outcome<Dict>)
      requires Valid() && perPage > 0
      modifies this, connection
      ensures connectionType == "pdo" ==> r == Fatal
      ensures connectionType == "mysqli" ==>
        SentAfter(old(connection.sent), old(connection.store),
                  [CountSql(table, driver, old(where)), SelectSql(table, driver, [], [], Null, Null)]) &&
        CountersKept() && Cleared() &&
        r == Done(PageBody(RowsOf(pageReply), CountOf(countReply, "total"), perPage, rowOffset))
    {
      var total := Count(countReply);
      if total.Fatal? {
        return Fatal;
      }
      var self := Limit(Int(perPage), Int(rowOffset));
      var data := FindAll(Null, Null, pageReply);
      if data.Fatal? {
        return Fatal;
      }
      r := Done(PageBody(data.value, total.value, perPage, rowOffset));
    }

    /**
     * A statement sent with `connection->query`, as the domain models'
     * hand-written queries are: the reply comes back as it is, None for a
     * failed query, and nothing is stored.
     */
    method Query(sql: string, reply: Option<seq<Dict>>) returns (r: Outcome<Option<seq<Dict>>>)
      requires Valid()
      modifies connection
      ensures connectionType == "pdo" ==> r == Fatal
      ensures connectionType == "mysqli" ==>
        SentAfter(old(connection.sent), old(connection.store), [sql]) && CountersKept() && r == Done(reply)
    {
      if connectionType != "mysqli" {
        return Fatal;
      }
      connection.sent := connection.sent + [sql];
      r := Done(reply);
    }

    /** fetchAll: every row of the reply, none for a failed query. */
    method FetchAll(sql: string, reply: Option<seq<Dict>>) returns (r: Outcome<seq<Dict>>)
      requires Valid()
      modifies connection
      ensures connectionType == "pdo" ==> r == Fatal
      ensures connectionType == "mysqli" ==>
        SentAfter(old(connection.sent), old(connection.store), [sql]) && CountersKept() && r == Done(RowsOf(reply))
    {
      var result := Query(sql, reply);
      if result.Fatal? {
        return Fatal;
      }
      if result.value.None? {
        return Done([]);
      }
      var rows := FetchRows(result.value.value);
      r := Done(rows);
    }

    /** fetchOne: `$row ?: null` on the first row of the reply. */
    method FetchOne(sql: string, reply: Option<seq<Dict>>) returns (r: Outcome<Option<Dict>>)
      requires Valid()
      modifies connection
      ensures connectionType == "pdo" ==> r == Fatal
      ensures connectionType == "mysqli" ==>
        SentAfter(old(connection.sent), old(connection.store), [sql]) && CountersKept() && r == Done(FetchedRow(reply))
    {
      var result := Query(sql, reply);
      if result.Fatal? {
        return Fatal;
      }
      r := Done(FetchedRow(result.value));
    }

    /** first: limit(1) has no effect on the statement, which carries no LIMIT. */
    method First(reply: Option<seq<Dict>>) returns (r: Outcome<Option<Dict>>)
      requires Valid()
      modifies this, connection
      ensures connectionType == "pdo" ==> r == Fatal
      ensures connectionType == "mysqli" ==>
        SentAfter(old(connection.sent), old(connection.store),
                  [SelectSql(table, driver, old(where), old(orderBy), Null, Null)]) &&
        CountersKept() && Cleared() &&
        r == Done(if RowsOf(reply) == [] then None else Some(RowsOf(reply)[0]))
    {
      var self := Limit(Int(1), Null);
      var results := FindAll(Null, Null, reply);
      if results.Fatal? {
        return Fatal;
      }
      r := Done(if results.value == [] then None else Some(results.value[0]));
    }
  }
}
