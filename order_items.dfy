// The OrderItem model of app/Models/V1/OrderItem.php: one order line per
// create, the loop that copies a cart into order lines, and the fallback
// answers of its read queries.
module OrderItems {
  import opened Wrappers
  import opened Strings
  import opened Php
  import opened Tables
  import opened Sql
  import opened Db
  import opened Models

  /**
   * The array createItem passes to create, with subtotal = quantity ×
   * price; amounts are integers (cents), so the product is exact.
   */
  function ItemRow(orderId: Value, productId: Value, productName: Value, quantity: Value, price: Value): Dict
  {
    [Entry(StrKey("order_id"), orderId),
     Entry(StrKey("product_id"), productId),
     Entry(StrKey("product_name"), productName),
     Entry(StrKey("quantity"), quantity),
     Entry(StrKey("price"), price),
     Entry(StrKey("subtotal"), Int(ToInt(quantity) * ToInt(price)))]
  }

  /** The order line createFromCart makes of one cart item. */
  function LineOf(orderId: Value, item: Dict): Dict
  {
    ItemRow(orderId, Field(item, "product_id"), Field(item, "product_name"), Field(item, "quantity"),
            Field(item, "price"))
  }

  /** The rows create stores for the cart items, stamped, in the items' order. */
  function LineRows(orderId: Value, items: seq<Dict>, now: string): (rows: seq<Dict>)
    ensures |rows| == |items|
    ensures forall i :: 0 <= i < |items| ==> rows[i] == Stamped(true, LineOf(orderId, items[i]), now)
  {
    seq(|items|, i requires 0 <= i < |items| => Stamped(true, LineOf(orderId, items[i]), now))
  }

  /** The INSERT statements of those rows, in order. */
  function InsertStatements(d: Driver, rows: seq<Dict>): (sqls: seq<string>)
    ensures |sqls| == |rows|
    ensures forall i :: 0 <= i < |rows| ==> sqls[i] == InsertSql("order_items", Columns(rows[i]), WrittenValues(d, rows[i]))
  {
    seq(|rows|, i requires 0 <= i < |rows| => InsertSql("order_items", Columns(rows[i]), WrittenValues(d, rows[i])))
  }

  /** The first position from i on that the verdict refuses, or n when it refuses none. */
  function FirstRefused(verdict: nat -> bool, i: nat, n: nat): (k: nat)
    requires i <= n
    ensures i <= k <= n
    ensures k < n ==> !verdict(k)
    decreases n - i
  {
    if i == n || !verdict(i) then i else FirstRefused(verdict, i + 1, n)
  }

  /**
   * The number of inserts createFromCart issues from the i-th item on:
   * up to and including the first refused one.
   */
  function Tried(verdict: nat -> bool, i: nat, n: nat): (t: nat)
    requires i <= n
    ensures FirstRefused(verdict, i, n) <= t <= n
  {
    if FirstRefused(verdict, i, n) < n then FirstRefused(verdict, i, n) + 1 else n
  }

  /** The first refused position is the one before which every insert was accepted. */
  lemma {:induction false} FirstRefusedIs(verdict: nat -> bool, i: nat, n: nat, k: nat)
    requires i <= k <= n
    requires forall j :: i <= j < k ==> verdict(j)
    requires k == n || !verdict(k)
    ensures FirstRefused(verdict, i, n) == k
    decreases k - i
  {
    if i < k {
      FirstRefusedIs(verdict, i + 1, n, k);
    }
  }

  /** The order line's quantity and subtotal columns. */
  lemma ItemRowColumns(orderId: Value, productId: Value, productName: Value, quantity: Value, price: Value)
    ensures var line := ItemRow(orderId, productId, productName, quantity, price);
      Lookup(line, StrKey("quantity")) == Some(quantity) &&
      Lookup(line, StrKey("subtotal")) == Some(Int(ToInt(quantity) * ToInt(price)))
  {
    var subtotal := Int(ToInt(quantity) * ToInt(price));
    KeyedLookup(orderId, productId, productName, quantity, price, subtotal, 3);
    KeyedLookup(orderId, productId, productName, quantity, price, subtotal, 5);
  }

  /** A lookup in the six columns of an order line finds the one at position i. */
  lemma KeyedLookup(a: Value, b: Value, c: Value, q: Value, p: Value, t: Value, i: nat)
    requires i == 3 || i == 5
    ensures var line := [Entry(StrKey("order_id"), a), Entry(StrKey("product_id"), b),
                         Entry(StrKey("product_name"), c), Entry(StrKey("quantity"), q),
                         Entry(StrKey("price"), p), Entry(StrKey("subtotal"), t)];
      Lookup(line, line[i].key) == Some(line[i].val)
  {
    var line := [Entry(StrKey("order_id"), a), Entry(StrKey("product_id"), b),
                 Entry(StrKey("product_name"), c), Entry(StrKey("quantity"), q),
                 Entry(StrKey("price"), p), Entry(StrKey("subtotal"), t)];
    assert "order_id"[0] != "quantity"[0] && "order_id"[0] != "subtotal"[0] && "quantity"[0] != "subtotal"[0];
    LookupFirst(line, i);
  }

  /**
   * A column the stamps and the id leave alone keeps, in the i-th of a
   * run of inserted rows, the value the line gave it.
   */
  lemma StoredColumn(s: Store, rows: seq<Dict>, i: nat, id: int, line: Dict, now: string, col: string)
    requires i < |rows| && id == NextId(s, "order_items") + i && rows[i] == Stamped(true, line, now)
    requires col != "id" && col != "created_at" && col != "updated_at"
    ensures var stored := RowAt(InsertRows(s, "order_items", "id", rows), "order_items", id);
      stored.Some? && Lookup(stored.value, StrKey(col)) == Lookup(line, StrKey(col))
  {
    InsertRowsAt(s, "order_items", "id", rows, i, id);
    StampedColumn(line, now, id, col);
  }

  /**
   * After n accepted inserts the i-th cart item, for i < n, is stored at
   * the i-th id from the next id on, with its quantity and subtotal =
   * quantity × price: the lines are created in the items' order.
   */
  lemma LineStored(s: Store, orderId: Value, items: seq<Dict>, now: string, n: nat, i: nat, id: int)
    requires i < n <= |items| && id == NextId(s, "order_items") + i
    ensures var rows := LineRows(orderId, items, now)[..n];
      var stored := RowAt(InsertRows(s, "order_items", "id", rows), "order_items", id);
      stored.Some? &&
      Lookup(stored.value, StrKey("quantity")) == Some(Field(items[i], "quantity")) &&
      Lookup(stored.value, StrKey("subtotal")) ==
        Some(Int(ToInt(Field(items[i], "quantity")) * ToInt(Field(items[i], "price"))))
  {
    var rows := LineRows(orderId, items, now)[..n];
    var item := items[i];
    var line := ItemRow(orderId, Field(item, "product_id"), Field(item, "product_name"), Field(item, "quantity"),
                        Field(item, "price"));
    StoredColumn(s, rows, i, id, line, now, "quantity");
    StoredColumn(s, rows, i, id, line, now, "subtotal");
    ItemRowColumns(orderId, Field(item, "product_id"), Field(item, "product_name"), Field(item, "quantity"),
                   Field(item, "price"));
  }

  /** The stamps and the id leave every other column of the line alone. */
  lemma StampedColumn(line: Dict, now: string, id: int, col: string)
    requires col != "id" && col != "created_at" && col != "updated_at"
    ensures Lookup(Put(Stamped(true, line, now), StrKey("id"), Int(id)), StrKey(col)) == Lookup(line, StrKey(col))
  {
  }

  /** getOrderSummary's answer when its query fails. */
  const ZeroSummary: Dict :=
    [Entry(StrKey("item_count"), Int(0)), Entry(StrKey("total_quantity"), Int(0)), Entry(StrKey("total"), Int(0))]

  /**
   * getOrderSummary's answer: the zeroed summary for a failed query,
   * otherwise the first row, or null when there is none.
   */
  function SummaryOf(reply: Option<seq<Dict>>): (r: Option<Dict>)
    ensures reply.None? ==> r == Some(ZeroSummary)
    ensures reply.Some? ==> (r.None? <==> reply.value == []) && (r.Some? ==> r.value == reply.value[0])
  {
    if reply.None? then Some(ZeroSummary)
    else if reply.value == [] then None
    else Some(reply.value[0])
  }

  /** The zeroed summary has each of its three figures at 0. */
  lemma ZeroSummaryFigures()
    ensures Lookup(ZeroSummary, StrKey("item_count")) == Some(Int(0))
    ensures Lookup(ZeroSummary, StrKey("total_quantity")) == Some(Int(0))
    ensures Lookup(ZeroSummary, StrKey("total")) == Some(Int(0))
  {
    LookupFirst(ZeroSummary, 1);
    LookupFirst(ZeroSummary, 2);
  }

  /** One more accepted line: the run of inserts grows by that line. */
  lemma InsertedStep(store0: Store, rows: seq<Dict>, i: nat)
    requires i < |rows|
    ensures InsertRows(store0, "order_items", "id", rows[..i + 1]) ==
      Insert(InsertRows(store0, "order_items", "id", rows[..i]), "order_items", "id", rows[i])
  {
    assert rows[..i + 1][..i] == rows[..i];
  }

  /**
   * The connection state after createItem's create of one stamped row
   * whose INSERT is sql: the statement is sent; an accepted one stores
   * the row at the next id, which becomes the insert id.
   */
  function AfterCreate(row: Dict, sql: string, accepted: bool, st: ConnState): (st': ConnState)
    ensures st'.sent == st.sent + [sql] && st'.affectedRows == st.affectedRows
    ensures !accepted ==> st'.store == st.store && st'.insertId == st.insertId
  {
    ConnState(st.sent + [sql],
              if accepted then Insert(st.store, "order_items", "id", row) else st.store,
              if accepted then NextId(st.store, "order_items") else st.insertId,
              st.affectedRows)
  }

  /**
   * createFromCart's loop from the i-th stamped line on, whose INSERTs
   * are sqls, as a value: its answer and the connection state it leaves.
   */
  function CartRun(rows: seq<Dict>, sqls: seq<string>, verdict: nat -> bool, i: nat, st: ConnState)
    : (r: (bool, ConnState))
    requires i <= |rows| == |sqls|
    decreases |rows| - i
  {
    if i == |rows| then (true, st)
    else
      var st' := AfterCreate(rows[i], sqls[i], verdict(i), st);
      if verdict(i) then CartRun(rows, sqls, verdict, i + 1, st') else (false, st')
  }

  /** After `tried` creates from sent0, each has sent its INSERT, in order. */
  ghost predicate SentLines(sqls: seq<string>, sent0: seq<string>, tried: nat, sent: seq<string>)
  {
    tried <= |sqls| && sent == sent0 + sqls[..tried]
  }

  /** After `kept` accepted creates of the rows from store0, each row is stored, in order. */
  ghost predicate StoredLines(rows: seq<Dict>, store0: Store, kept: nat, store: Store)
  {
    kept <= |rows| && store == InsertRows(store0, "order_items", "id", rows[..kept])
  }

  /** After `kept` accepted creates, the insert id is the last stored row's. */
  ghost predicate LastIdLines(store0: Store, insertId0: int, kept: nat, insertId: int)
  {
    insertId == if kept == 0 then insertId0 else NextId(store0, "order_items") + kept - 1
  }

  /**
   * The connection state st after `tried` creates of the rows from st0,
   * of which the first `kept` were accepted: the INSERTs of the tried
   * rows were sent and the kept rows stored.
   */
  ghost predicate LinesAfter(d: Driver, rows: seq<Dict>, st0: ConnState, tried: nat, kept: nat, st: ConnState)
  {
    kept <= tried &&
    SentLines(InsertStatements(d, rows), st0.sent, tried, st.sent) &&
    StoredLines(rows, st0.store, kept, st.store) &&
    LastIdLines(st0.store, st0.insertId, kept, st.insertId) &&
    st.affectedRows == st0.affectedRows
  }

  /** An accepted create moves the run on to the next row. */
  lemma CartRunNext(rows: seq<Dict>, sqls: seq<string>, verdict: nat -> bool, i: nat, st: ConnState)
    requires i < |rows| == |sqls| && verdict(i)
    ensures CartRun(rows, sqls, verdict, i, st) == CartRun(rows, sqls, verdict, i + 1, AfterCreate(rows[i], sqls[i], true, st))
  {
  }

  /** From the i-th row on, the run answers true exactly when no insert is refused. */
  lemma {:induction false} CartRunAnswer(rows: seq<Dict>, sqls: seq<string>, verdict: nat -> bool, i: nat,
                                         st: ConnState)
    requires i <= |rows| == |sqls|
    ensures CartRun(rows, sqls, verdict, i, st).0 == (FirstRefused(verdict, i, |rows|) == |rows|)
    decreases |rows| - i
  {
    if i < |rows| && verdict(i) {
      CartRunAnswer(rows, sqls, verdict, i + 1, AfterCreate(rows[i], sqls[i], true, st));
    }
  }

  /** From the i-th row on, the run sends the INSERTs up to and including the first refused one. */
  lemma {:induction false} CartRunSent(rows: seq<Dict>, sqls: seq<string>, verdict: nat -> bool, i: nat,
                                       sent0: seq<string>, st: ConnState)
    requires i <= |rows| == |sqls| && SentLines(sqls, sent0, i, st.sent)
    ensures SentLines(sqls, sent0, Tried(verdict, i, |rows|), CartRun(rows, sqls, verdict, i, st).1.sent)
    decreases |rows| - i
  {
    if i < |rows| {
      var st' := AfterCreate(rows[i], sqls[i], verdict(i), st);
      assert sqls[..i + 1] == sqls[..i] + [sqls[i]];
      assert SentLines(sqls, sent0, i + 1, st'.sent);
      if verdict(i) {
        CartRunSent(rows, sqls, verdict, i + 1, sent0, st');
      }
    }
  }

  /** From the i-th row on, the run stores the rows before the first refused one. */
  lemma {:induction false} CartRunStored(rows: seq<Dict>, sqls: seq<string>, verdict: nat -> bool, i: nat,
                                         store0: Store, st: ConnState)
    requires i <= |rows| == |sqls| && StoredLines(rows, store0, i, st.store)
    ensures StoredLines(rows, store0, FirstRefused(verdict, i, |rows|), CartRun(rows, sqls, verdict, i, st).1.store)
    decreases |rows| - i
  {
    if i < |rows| && verdict(i) {
      var st' := AfterCreate(rows[i], sqls[i], true, st);
      InsertedStep(store0, rows, i);
      assert StoredLines(rows, store0, i + 1, st'.store);
      CartRunStored(rows, sqls, verdict, i + 1, store0, st');
    }
  }

  /** From the i-th row on, the run leaves the insert id at the last stored row's. */
  lemma {:induction false} CartRunLastId(rows: seq<Dict>, sqls: seq<string>, verdict: nat -> bool, i: nat,
                                         store0: Store, insertId0: int, st: ConnState)
    requires i <= |rows| == |sqls|
    requires StoredLines(rows, store0, i, st.store) && LastIdLines(store0, insertId0, i, st.insertId)
    ensures LastIdLines(store0, insertId0, FirstRefused(verdict, i, |rows|), CartRun(rows, sqls, verdict, i, st).1.insertId)
    decreases |rows| - i
  {
    if i < |rows| && verdict(i) {
      var st' := AfterCreate(rows[i], sqls[i], true, st);
      InsertedStep(store0, rows, i);
      InsertRowsNext(store0, "order_items", "id", rows[..i]);
      assert StoredLines(rows, store0, i + 1, st'.store);
      CartRunLastId(rows, sqls, verdict, i + 1, store0, insertId0, st');
    }
  }

  /** The run keeps the affected-rows counter. */
  lemma {:induction false} CartRunAffected(rows: seq<Dict>, sqls: seq<string>, verdict: nat -> bool, i: nat,
                                           st: ConnState)
    requires i <= |rows| == |sqls|
    ensures CartRun(rows, sqls, verdict, i, st).1.affectedRows == st.affectedRows
    decreases |rows| - i
  {
    if i < |rows| && verdict(i) {
      CartRunAffected(rows, sqls, verdict, i + 1, AfterCreate(rows[i], sqls[i], true, st));
    }
  }

  /**
   * createFromCart on a whole cart: true exactly when every insert was
   * accepted; the statements are the INSERTs up to and including the
   * first refused one, and the database holds the lines before it, in the
   * items' order, the last of them giving the insert id.
   */
  lemma CartRunEffect(d: Driver, rows: seq<Dict>, verdict: nat -> bool, st0: ConnState)
    ensures var run := CartRun(rows, InsertStatements(d, rows), verdict, 0, st0);
      run.0 == (FirstRefused(verdict, 0, |rows|) == |rows|) &&
      LinesAfter(d, rows, st0, Tried(verdict, 0, |rows|), FirstRefused(verdict, 0, |rows|), run.1)
  {
    var sqls := InsertStatements(d, rows);
    assert sqls[..0] == [] && rows[..0] == [];
    assert st0.sent + [] == st0.sent;
    CartRunAnswer(rows, sqls, verdict, 0, st0);
    CartRunSent(rows, sqls, verdict, 0, st0.sent, st0);
    CartRunStored(rows, sqls, verdict, 0, st0.store, st0);
    CartRunLastId(rows, sqls, verdict, 0, st0.store, st0.insertId, st0);
    CartRunAffected(rows, sqls, verdict, 0, st0);
  }

  class OrderItem {
    const base: BaseModel

    predicate Valid()
    {
      base.Valid() && base.table == "order_items" && base.primaryKey == "id" && base.timestamps
    }

    constructor (rawUrl: string, db: Database, driver: Driver)
      requires db.Valid() && db.mysqliInitialized
      ensures Valid() && fresh(base) && base.Cleared()
      ensures base.apiVersion == DetectApiVersion(rawUrl) && base.driver == driver
      ensures base.connection == (if base.apiVersion == "v1" then db.mysqli else null)
    {
      base := new BaseModel("order_items", "id", true, rawUrl, db, driver);
    }

    /** createItem: one create of the line, with its subtotal. */
    method CreateItem(orderId: Value, productId: Value, productName: Value, quantity: Value, price: Value,
                      now: string, accepted: bool) returns (r: Outcome<Value>)
      requires Valid()
      modifies base.connection
      ensures base.connectionType == "pdo" ==> r == Fatal
      ensures base.connectionType == "mysqli" ==>
        r == Done(if accepted then Int(NextId(old(base.connection.store), "order_items")) else Bool(false)) &&
        var row := Stamped(true, ItemRow(orderId, productId, productName, quantity, price), now);
        base.connection.State() ==
          AfterCreate(row, InsertSql("order_items", Columns(row), WrittenValues(base.driver, row)), accepted,
                      old(base.connection.State()))
    {
      var subtotal := Int(ToInt(quantity) * ToInt(price));
      r := base.Create([Entry(StrKey("order_id"), orderId),
                        Entry(StrKey("product_id"), productId),
                        Entry(StrKey("product_name"), productName),
                        Entry(StrKey("quantity"), quantity),
                        Entry(StrKey("price"), price),
                        Entry(StrKey("subtotal"), subtotal)], now, accepted);
    }

    /**
     * The body of createFromCart's loop: createItem for the i-th cart
     * item, whose stamped line is rows[i] and whose INSERT is sqls[i].
     */
    method CreateLine(orderId: Value, items: seq<Dict>, now: string, verdict: nat -> bool, i: nat,
                      ghost rows: seq<Dict>, ghost sqls: seq<string>) returns (itemId: Outcome<Value>)
      requires Valid() && i < |items|
      requires rows == LineRows(orderId, items, now) && sqls == InsertStatements(base.driver, rows)
      modifies base.connection
      ensures base.connectionType == "pdo" ==> itemId == Fatal
      ensures base.connectionType == "mysqli" ==>
        itemId.Done? && (Truthy(itemId.value) <==> verdict(i)) &&
        base.connection.State() == AfterCreate(rows[i], sqls[i], verdict(i), old(base.connection.State()))
    {
      var item := items[i];
      itemId := CreateItem(orderId, Field(item, "product_id"), Field(item, "product_name"),
                           Field(item, "quantity"), Field(item, "price"), now, verdict(i));
      assert rows[i] == Stamped(true, LineOf(orderId, item), now);
    }

    /**
     * createFromCart: one create per cart item, in order; the first
     * refused insert ends the loop with false, and the lines created
     * before it stay. An empty cart gives true without a statement.
     * CartRunEffect states the answer and the new state outright.
     */
    method CreateFromCart(orderId: Value, items: seq<Dict>, now: string, verdict: nat -> bool)
      returns (r: Outcome<bool>)
      requires Valid()
      modifies base.connection
      ensures base.connectionType == "pdo" ==> r == if items == [] then Done(true) else Fatal
      ensures base.connectionType == "mysqli" ==>
        var rows := LineRows(orderId, items, now);
        var run := CartRun(rows, InsertStatements(base.driver, rows), verdict, 0, old(base.connection.State()));
        r == Done(run.0) && base.connection.State() == run.1
    {
      ghost var c := base.connection;
      ghost var st0 := if c != null then c.State() else ConnState([], EmptyStore, 0, 0);
      ghost var rows := LineRows(orderId, items, now);
      ghost var sqls := InsertStatements(base.driver, rows);
      var i := 0;
      while i < |items|
        invariant 0 <= i <= |items|
        invariant c == null ==> i == 0
        invariant c != null ==>
          CartRun(rows, sqls, verdict, i, c.State()) == CartRun(rows, sqls, verdict, 0, st0)
      {
        ghost var before := if c != null then c.State() else st0;
        var itemId := CreateLine(orderId, items, now, verdict, i, rows, sqls);
        if itemId.Fatal? {
          return Fatal;
        }
        if !Truthy(itemId.value) {
          assert CartRun(rows, sqls, verdict, i, before).0 == false;
          return Done(false);
        }
        CartRunNext(rows, sqls, verdict, i, before);
        i := i + 1;
      }
      r := Done(true);
    }

    /** getByOrder: the rows of its join query, none when the query fails. */
    method GetByOrder(orderId: Value, reply: Option<seq<Dict>>) returns (r: Outcome<seq<Dict>>)
      requires Valid()
      modifies base.connection
      ensures base.connectionType == "pdo" ==> r == Fatal
      ensures base.connectionType == "mysqli" ==>
        base.SentAfter(old(base.connection.sent), old(base.connection.store),
                       [HandWritten("getByOrder", [base.driver.escape(ToStr(orderId))])]) &&
        base.CountersKept() && r == Done(RowsOf(reply)) && (reply.None? ==> r == Done([]))
    {
      var sql := HandWritten("getByOrder", [base.driver.escape(ToStr(orderId))]);
      var result := base.Query(sql, reply);
      if result.Fatal? {
        return Fatal;
      }
      if result.value.None? {
        return Done([]);
      }
      var items := FetchRows(result.value.value);
      r := Done(items);
    }

    /** getOrderSummary: the first row of its aggregate query, zeroed when the query fails. */
    method GetOrderSummary(orderId: Value, reply: Option<seq<Dict>>) returns (r: Outcome<Option<Dict>>)
      requires Valid()
      modifies base.connection
      ensures base.connectionType == "pdo" ==> r == Fatal
      ensures base.connectionType == "mysqli" ==>
        base.SentAfter(old(base.connection.sent), old(base.connection.store),
                       [HandWritten("getOrderSummary", [base.driver.escape(ToStr(orderId))])]) &&
        base.CountersKept() && r == Done(SummaryOf(reply))
    {
      var sql := HandWritten("getOrderSummary", [base.driver.escape(ToStr(orderId))]);
      var result := base.Query(sql, reply);
      if result.Fatal? {
        return Fatal;
      }
      if result.value.None? {
        return Done(Some(ZeroSummary));
      }
      var rows := result.value.value;
      r := Done(if rows == [] then None else Some(rows[0]));
    }
  }
}
