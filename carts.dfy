// The Cart model of app/Models/V1/Cart.php: one cart per user, found by
// its user id or created on demand, read back with its items and their
// total, counted, summed and deleted together with its items.
module Carts {
  import opened Wrappers
  import opened Php
  import opened Tables
  import opened Sql
  import opened Db
  import opened Models
  import opened Effects

  /** getByUserId's statement, with the escaped user id. */
  function ByUserSql(d: Driver, userId: Value): string
  {
    "SELECT * FROM carts WHERE user_id = '" + d.escape(ToStr(userId)) + "' LIMIT 1"
  }

  /** The row getOrCreate inserts: the user id, and the two stamps create adds. */
  function NewCartRow(userId: Value, now: string): Dict
  {
    [Entry(StrKey("user_id"), userId), Entry(StrKey("created_at"), Str(now)), Entry(StrKey("updated_at"), Str(now))]
  }

  /**
   * getOrCreate on a connection in state st: the cart the lookup found,
   * or else a create and, once MySQL accepted it, find on the new id.
   */
  function GetOrCreateRun(d: Driver, userId: Value, lookup: Option<seq<Dict>>, now: string,
                          accepted: bool, findAccepted: bool, st: ConnState): (Option<Dict>, ConnState)
  {
    var st1 := Sent(st, ByUserSql(d, userId));
    match FetchedRow(lookup)
    case Some(cart) => (Some(cart), st1)
    case None =>
      var st2 := Created(st1, "carts", "id", d, NewCartRow(userId, now), accepted);
      if !accepted then (None, st2)
      else
        var id := Int(NextId(st.store, "carts"));
        (FindAnswer(st2, "carts", id, findAccepted), Sent(st2, FindSql("carts", "id", d, id)))
  }

  /** The columns of the INSERT getOrCreate sends. */
  const CartColumns: seq<string> := ["user_id", "created_at", "updated_at"]

  /**
   * create's stamping of getOrCreate's data: the user id and then the two
   * stamps, and nothing else, so the INSERT names exactly those columns.
   */
  lemma NewCartColumns(userId: Value, now: string)
    ensures Stamped(true, [Entry(StrKey("user_id"), userId)], now) == NewCartRow(userId, now)
    ensures Columns(NewCartRow(userId, now)) == CartColumns
  {
    var d0: Dict := [Entry(StrKey("user_id"), userId)];
    PutNew(d0, Entry(StrKey("created_at"), Str(now)));
    var d1 := d0 + [Entry(StrKey("created_at"), Str(now))];
    PutNew(d1, Entry(StrKey("updated_at"), Str(now)));
  }

  /** A user who has a cart gets it back: only the lookup was sent and nothing was stored. */
  lemma ExistingCartKept(d: Driver, userId: Value, lookup: Option<seq<Dict>>, now: string,
                         accepted: bool, findAccepted: bool, st: ConnState)
    requires FetchedRow(lookup).Some?
    ensures var run := GetOrCreateRun(d, userId, lookup, now, accepted, findAccepted, st);
      run.0 == FetchedRow(lookup) && run.1.sent == st.sent + [ByUserSql(d, userId)] &&
      run.1.store == st.store && run.1.insertId == st.insertId
  {
  }

  /** A user without a cart and a refused insert: none, the lookup and the INSERT sent, nothing stored. */
  lemma NewCartRefused(d: Driver, userId: Value, lookup: Option<seq<Dict>>, now: string,
                       findAccepted: bool, st: ConnState)
    requires FetchedRow(lookup).None?
    ensures var run := GetOrCreateRun(d, userId, lookup, now, false, findAccepted, st);
      var row := NewCartRow(userId, now);
      run.0.None? && run.1.store == st.store && run.1.insertId == st.insertId &&
      run.1.sent == st.sent + [ByUserSql(d, userId), InsertSql("carts", CartColumns, WrittenValues(d, row))]
  {
    NewCartColumns(userId, now);
  }

  /**
   * A user without a cart and an accepted insert: a cart holding only the
   * user id and the stamps is stored under the next id, which becomes the
   * insert id.
   */
  lemma NewCartStored(d: Driver, userId: Value, lookup: Option<seq<Dict>>, now: string,
                      findAccepted: bool, st: ConnState)
    requires FetchedRow(lookup).None?
    ensures var run := GetOrCreateRun(d, userId, lookup, now, true, findAccepted, st);
      run.1.store == Insert(st.store, "carts", "id", NewCartRow(userId, now)) &&
      run.1.insertId == NextId(st.store, "carts")
  {
  }

  /** After an accepted insert, find on the new id follows the lookup and the INSERT. */
  lemma NewCartSent(d: Driver, userId: Value, lookup: Option<seq<Dict>>, now: string,
                    findAccepted: bool, st: ConnState)
    requires FetchedRow(lookup).None?
    ensures var run := GetOrCreateRun(d, userId, lookup, now, true, findAccepted, st);
      var row := NewCartRow(userId, now);
      run.1.sent == st.sent + [ByUserSql(d, userId), InsertSql("carts", Columns(row), WrittenValues(d, row)),
                               FindSql("carts", "id", d, Int(NextId(st.store, "carts")))]
  {
  }

  /** When find on the new id succeeds, getOrCreate returns the stored row with its id. */
  lemma NewCartFetched(d: Driver, userId: Value, lookup: Option<seq<Dict>>, now: string, st: ConnState)
    requires FetchedRow(lookup).None?
    ensures GetOrCreateRun(d, userId, lookup, now, true, true, st).0 ==
      Some(Put(NewCartRow(userId, now), StrKey("id"), Int(NextId(st.store, "carts"))))
  {
    InsertNew(st.store, "carts", "id", NewCartRow(userId, now));
  }

  /** The cart getOrCreate returns after a create belongs to the user and carries the new id. */
  lemma NewCartOwned(d: Driver, userId: Value, lookup: Option<seq<Dict>>, now: string, st: ConnState)
    requires FetchedRow(lookup).None?
    ensures var run := GetOrCreateRun(d, userId, lookup, now, true, true, st);
      run.0.Some? && Lookup(run.0.value, StrKey("user_id")) == Some(userId) &&
      Lookup(run.0.value, StrKey("id")) == Some(Int(NextId(st.store, "carts")))
  {
    NewCartFetched(d, userId, lookup, now, st);
    NewCartColumns(userId, now);
    assert Lookup(NewCartRow(userId, now), StrKey("user_id")) == Some(userId) by {
      LookupFirst(NewCartRow(userId, now), 0);
    }
  }

  /** getWithItems's join over cart_items and products; the cart id goes in unescaped. */
  function ItemsSql(cartId: Value): string
  {
    HandWritten("getWithItems", [ToStr(cartId)])
  }

  /**
   * `$total += $row['subtotal']` over the first n rows, each subtotal
   * read as a number by amount (a price in cents).
   */
  function SubtotalSum(rows: seq<Dict>, amount: Value -> int): int
  {
    if rows == [] then 0
    else SubtotalSum(rows[..|rows| - 1], amount) + amount(Field(rows[|rows| - 1], "subtotal"))
  }

  /** The sum over a concatenation is the sum of the sums. */
  lemma {:induction false} SubtotalSumAppend(a: seq<Dict>, b: seq<Dict>, amount: Value -> int)
    ensures SubtotalSum(a + b, amount) == SubtotalSum(a, amount) + SubtotalSum(b, amount)
    decreases |b|
  {
    if b == [] {
      assert a + b == a;
    } else {
      var b' := b[..|b| - 1];
      assert (a + b)[..|a + b| - 1] == a + b';
      SubtotalSumAppend(a, b', amount);
    }
  }

  /** The item rows as the list `$items[] = $row` builds. */
  function RowList(rows: seq<Dict>): (items: seq<Value>)
    ensures |items| == |rows| && forall i :: 0 <= i < |rows| ==> items[i] == Arr(rows[i])
  {
    seq(|rows|, i requires 0 <= i < |rows| => Arr(rows[i]))
  }

  /** The cart with its items, their total and their count set on it, in that order. */
  function WithItems(cart: Dict, rows: seq<Dict>, amount: Value -> int): Dict
  {
    var c1 := Put(cart, StrKey("items"), Arr(ListOf(RowList(rows))));
    var c2 := Put(c1, StrKey("total"), Int(SubtotalSum(rows, amount)));
    Put(c2, StrKey("item_count"), Int(|rows|))
  }

  /**
   * The cart getWithItems returns lists its items, in the order of the
   * reply, with their count and the sum of their subtotals; every other
   * column of the cart is as stored.
   */
  lemma WithItemsShape(cart: Dict, rows: seq<Dict>, amount: Value -> int)
    ensures var c := WithItems(cart, rows, amount);
      Lookup(c, StrKey("item_count")) == Some(Int(|rows|)) &&
      Lookup(c, StrKey("total")) == Some(Int(SubtotalSum(rows, amount))) &&
      Lookup(c, StrKey("items")) == Some(Arr(ListOf(RowList(rows)))) &&
      |ListOf(RowList(rows))| == |rows| &&
      forall k :: k != StrKey("items") && k != StrKey("total") && k != StrKey("item_count") ==>
        Lookup(c, k) == Lookup(cart, k)
  {
  }

  /**
   * getWithItems: find on the cart id; a missing cart is null with only
   * the find sent; otherwise the join's rows (none when it failed) are
   * set on the cart.
   */
  function WithItemsRun(d: Driver, cartId: Value, findAccepted: bool, itemsReply: Option<seq<Dict>>,
                        amount: Value -> int, st: ConnState): (Option<Dict>, ConnState)
  {
    var st1 := Sent(st, FindSql("carts", "id", d, cartId));
    match FindAnswer(st, "carts", cartId, findAccepted)
    case None => (None, st1)
    case Some(cart) => (Some(WithItems(cart, RowsOf(itemsReply), amount)), Sent(st1, ItemsSql(cartId)))
  }

  /**
   * getWithItems returns null exactly when find finds no cart; then the
   * join is not sent. Nothing is stored either way, and a failed join
   * leaves the cart with no items, a zero total and a zero count.
   */
  lemma WithItemsMissing(d: Driver, cartId: Value, findAccepted: bool, itemsReply: Option<seq<Dict>>,
                         amount: Value -> int, st: ConnState)
    ensures var run := WithItemsRun(d, cartId, findAccepted, itemsReply, amount, st);
      (run.0.None? <==> !findAccepted || Found(st.store, "carts", cartId).None?) &&
      (run.0.None? ==> run.1.sent == st.sent + [FindSql("carts", "id", d, cartId)]) &&
      (run.0.Some? ==> run.1.sent == st.sent + [FindSql("carts", "id", d, cartId), ItemsSql(cartId)]) &&
      (run.0.Some? && itemsReply.None? ==>
        Lookup(run.0.value, StrKey("item_count")) == Some(Int(0)) &&
        Lookup(run.0.value, StrKey("total")) == Some(Int(0))) &&
      run.1.store == st.store && run.1.insertId == st.insertId
  {
    if findAccepted && Found(st.store, "carts", cartId).Some? {
      WithItemsShape(Found(st.store, "carts", cartId).value, RowsOf(itemsReply), amount);
    }
  }

  /** getUserCartWithItems: getOrCreate, then getWithItems on the cart's id. */
  function UserCartRun(d: Driver, userId: Value, lookup: Option<seq<Dict>>, now: string, accepted: bool,
                       findAccepted: bool, withFindAccepted: bool, itemsReply: Option<seq<Dict>>,
                       amount: Value -> int, st: ConnState): (Option<Dict>, ConnState)
  {
    var (cart, st1) := GetOrCreateRun(d, userId, lookup, now, accepted, findAccepted, st);
    match cart
    case None => (None, st1)
    case Some(c) => WithItemsRun(d, Field(c, "id"), withFindAccepted, itemsReply, amount, st1)
  }

  /**
   * A user who has a cart gets it with its items, found again by its id,
   * and no cart is created.
   */
  lemma UserCartExisting(d: Driver, userId: Value, lookup: Option<seq<Dict>>, now: string, accepted: bool,
                         findAccepted: bool, withFindAccepted: bool, itemsReply: Option<seq<Dict>>,
                         amount: Value -> int, st: ConnState)
    requires FetchedRow(lookup).Some?
    ensures var run := UserCartRun(d, userId, lookup, now, accepted, findAccepted, withFindAccepted,
                                   itemsReply, amount, st);
      var id := Field(FetchedRow(lookup).value, "id");
      run == WithItemsRun(d, id, withFindAccepted, itemsReply, amount, Sent(st, ByUserSql(d, userId))) &&
      run.1.store == st.store
  {
    var id := Field(FetchedRow(lookup).value, "id");
    WithItemsMissing(d, id, withFindAccepted, itemsReply, amount, Sent(st, ByUserSql(d, userId)));
  }

  /** getItemCount's count over the cart's items; the cart id goes in unescaped. */
  function ItemCountSql(cartId: Value): string
  {
    "SELECT COUNT(*) as total FROM cart_items WHERE cart_id = '" + ToStr(cartId) + "'"
  }

  /**
   * getItemCount: 0 when the user has no cart, else `(int)($row['total']
   * ?? 0)` on the count's first row, which is 0 when it failed.
   */
  function ItemCountRun(d: Driver, userId: Value, lookup: Option<seq<Dict>>, countReply: Option<seq<Dict>>,
                        st: ConnState): (int, ConnState)
  {
    var st1 := Sent(st, ByUserSql(d, userId));
    match FetchedRow(lookup)
    case None => (0, st1)
    case Some(cart) => (RowTotal(FetchedRow(countReply)), Sent(st1, ItemCountSql(Field(cart, "id"))))
  }

  /** `(int)($row['total'] ?? 0)` on what fetchOne returned: 0 for null. */
  function RowTotal(row: Option<Dict>): int
  {
    match row
    case None => 0
    case Some(r) => ToInt(Coalesce(r, StrKey("total"), Int(0)))
  }

  /** getTotal's sum over the cart's items. */
  function TotalSql(cartId: Value): string
  {
    HandWritten("getTotal", [ToStr(cartId)])
  }

  /**
   * getTotal: 0 when the user has no cart or the sum failed, else the
   * float cast (read by amount) of `$row['total'] ?? 0` on the first row.
   */
  function TotalRun(d: Driver, userId: Value, lookup: Option<seq<Dict>>, totalReply: Option<seq<Dict>>,
                    amount: Value -> int, st: ConnState): (int, ConnState)
  {
    var st1 := Sent(st, ByUserSql(d, userId));
    match FetchedRow(lookup)
    case None => (0, st1)
    case Some(cart) =>
      var st2 := Sent(st1, TotalSql(Field(cart, "id")));
      match totalReply
      case None => (0, st2)
      case Some(rows) =>
        var total := if rows == [] then Int(0) else Coalesce(rows[0], StrKey("total"), Int(0));
        (amount(total), st2)
  }

  /**
   * A user without a cart has item count 0 and total 0, and only the
   * lookup is sent; neither ever stores anything.
   */
  lemma NoCartZero(d: Driver, userId: Value, lookup: Option<seq<Dict>>, countReply: Option<seq<Dict>>,
                   totalReply: Option<seq<Dict>>, amount: Value -> int, st: ConnState)
    requires FetchedRow(lookup).None?
    ensures ItemCountRun(d, userId, lookup, countReply, st) == (0, Sent(st, ByUserSql(d, userId)))
    ensures TotalRun(d, userId, lookup, totalReply, amount, st) == (0, Sent(st, ByUserSql(d, userId)))
  {
  }

  /** The rows of the cart clearItems selects: those whose cart_id is the cart's. */
  function InCart(cartId: Value): Dict -> bool
  {
    (row: Dict) => ToInt(Field(row, "cart_id")) == RowKey(cartId)
  }

  /** clearItems's statement, with the escaped cart id. */
  function ClearSql(d: Driver, cartId: Value): string
  {
    "DELETE FROM cart_items WHERE cart_id = '" + d.escape(ToStr(cartId)) + "'"
  }

  /** clearItems: one DELETE of the cart's items; its answer is whether MySQL accepted it. */
  function ClearRun(d: Driver, cartId: Value, accepted: bool, st: ConnState): (bool, ConnState)
  {
    (accepted, ConnState(st.sent + [ClearSql(d, cartId)],
                         if accepted then DeleteWhere(st.store, "cart_items", InCart(cartId)) else st.store,
                         st.insertId, st.affectedRows))
  }

  /** deleteCart: clearItems, whose answer is dropped, then delete of the cart. */
  function DeleteCartRun(d: Driver, cartId: Value, clearAccepted: bool, deleteAccepted: bool, st: ConnState)
    : (bool, ConnState)
  {
    var st1 := ClearRun(d, cartId, clearAccepted, st).1;
    (deleteAccepted, Deleted(st1, "carts", "id", d, cartId, deleteAccepted))
  }

  /**
   * deleteCart sends the items' DELETE before the cart's and answers
   * only the cart's; when both are accepted the cart and every item of
   * it are gone, and every other row stays.
   */
  lemma DeleteCartEffect(d: Driver, cartId: Value, clearAccepted: bool, deleteAccepted: bool, st: ConnState)
    requires Fresh(st.store)
    ensures var run := DeleteCartRun(d, cartId, clearAccepted, deleteAccepted, st);
      run.0 == deleteAccepted &&
      run.1.sent == st.sent + [ClearSql(d, cartId), DeleteSql("carts", "id", d, cartId)] &&
      Fresh(run.1.store) &&
      (deleteAccepted ==> RowAt(run.1.store, "carts", RowKey(cartId)).None?) &&
      (clearAccepted ==> forall k :: RowAt(run.1.store, "cart_items", k).Some? ==>
                           !InCart(cartId)(RowAt(run.1.store, "cart_items", k).value)) &&
      (forall t, k :: t != "carts" && t != "cart_items" ==> RowAt(run.1.store, t, k) == RowAt(st.store, t, k))
  {
    var st1 := ClearRun(d, cartId, clearAccepted, st).1;
    if clearAccepted {
      DeleteWhereRowAt(st.store, "cart_items", InCart(cartId));
    }
    if deleteAccepted {
      DeleteRowAt(st1.store, "carts", RowKey(cartId));
      if clearAccepted {
        forall k | RowAt(DeleteRow(st1.store, "carts", RowKey(cartId)), "cart_items", k).Some?
          ensures !InCart(cartId)(RowAt(DeleteRow(st1.store, "carts", RowKey(cartId)), "cart_items", k).value)
        {
          assert RowAt(DeleteRow(st1.store, "carts", RowKey(cartId)), "cart_items", k) == RowAt(st1.store, "cart_items", k);
        }
      }
    }
  }

  class Cart {
    const base: BaseModel

    predicate Valid()
    {
      base.Valid() && base.table == "carts" && base.primaryKey == "id" && base.timestamps
    }

    constructor (rawUrl: string, db: Database, driver: Driver)
      requires db.Valid() && db.mysqliInitialized
      ensures Valid() && fresh(base) && base.Cleared()
      ensures base.apiVersion == DetectApiVersion(rawUrl) && base.driver == driver
      ensures base.connection == (if base.apiVersion == "v1" then db.mysqli else null)
    {
      base := new BaseModel("carts", "id", true, rawUrl, db, driver);
    }

    /** getByUserId: the user's cart, none when the lookup failed or found no row. */
    method GetByUserId(userId: Value, reply: Option<seq<Dict>>) returns (r: Outcome<Option<Dict>>)
      requires Valid()
      modifies base.connection
      ensures base.connectionType == "pdo" ==> r == Fatal
      ensures base.connectionType == "mysqli" ==>
        r == Done(FetchedRow(reply)) &&
        base.connection.State() == Sent(old(base.connection.State()), ByUserSql(base.driver, userId))
    {
      var result := base.Query(ByUserSql(base.driver, userId), reply);
      if result.Fatal? {
        return Fatal;
      }
      if result.value.None? {
        return Done(None);
      }
      r := Done(FetchedRow(result.value));
    }

    /** getOrCreate's create: the new cart's row, holding the user id only. */
    method CreateCart(userId: Value, now: string, accepted: bool) returns (r: Outcome<Value>)
      requires Valid()
      modifies base.connection
      ensures base.connectionType == "pdo" ==> r == Fatal
      ensures base.connectionType == "mysqli" ==>
        r == Done(if accepted then Int(NextId(old(base.connection.store), "carts")) else Bool(false)) &&
        base.connection.State() ==
          Created(old(base.connection.State()), "carts", "id", base.driver, NewCartRow(userId, now), accepted)
    {
      r := base.Create([Entry(StrKey("user_id"), userId)], now, accepted);
      NewCartColumns(userId, now);
    }

    /** getOrCreate (app/Models/V1/Cart.php:32-51). */
    method GetOrCreate(userId: Value, lookup: Option<seq<Dict>>, now: string, accepted: bool, findAccepted: bool)
      returns (r: Outcome<Option<Dict>>)
      requires Valid()
      modifies base.connection
      ensures base.connectionType == "pdo" ==> r == Fatal
      ensures base.connectionType == "mysqli" ==>
        var run := GetOrCreateRun(base.driver, userId, lookup, now, accepted, findAccepted,
                                  old(base.connection.State()));
        r == Done(run.0) && base.connection.State() == run.1
    {
      var cart := GetByUserId(userId, lookup);
      if cart.Fatal? {
        return Fatal;
      }
      if cart.value.Some? {
        return Done(cart.value);
      }
      var cartId := CreateCart(userId, now, accepted);
      if cartId.Fatal? {
        return Fatal;
      }
      if Truthy(cartId.value) {
        r := base.Find(cartId.value, findAccepted);
        return;
      }
      r := Done(None);
    }

    /** getWithItems (app/Models/V1/Cart.php:76-125): the loop gathers the rows and sums their subtotals. */
    method GetWithItems(cartId: Value, findAccepted: bool, itemsReply: Option<seq<Dict>>, amount: Value -> int)
      returns (r: Outcome<Option<Dict>>)
      requires Valid()
      modifies base.connection
      ensures base.connectionType == "pdo" ==> r == Fatal
      ensures base.connectionType == "mysqli" ==>
        var run := WithItemsRun(base.driver, cartId, findAccepted, itemsReply, amount, old(base.connection.State()));
        r == Done(run.0) && base.connection.State() == run.1
    {
      var cart := base.Find(cartId, findAccepted);
      if cart.Fatal? {
        return Fatal;
      }
      if cart.value.None? {
        return Done(None);
      }
      var result := base.Query(ItemsSql(cartId), itemsReply);
      if result.Fatal? {
        return Fatal;
      }
      var rows := RowsOf(result.value);
      var items, total := GatherItems(rows, amount);
      var c := cart.value.value;
      c := Put(c, StrKey("items"), Arr(ListOf(items)));
      c := Put(c, StrKey("total"), Int(total));
      c := Put(c, StrKey("item_count"), Int(|items|));
      r := Done(Some(c));
    }

    /**
     * The fetch loop of getWithItems: every row in the reply's order, and
     * the running sum of their subtotals.
     */
    method GatherItems(rows: seq<Dict>, amount: Value -> int) returns (items: seq<Value>, total: int)
      ensures items == RowList(rows) && total == SubtotalSum(rows, amount)
    {
      items := [];
      total := 0;
      var i := 0;
      while i < |rows|
        invariant 0 <= i <= |rows|
        invariant items == RowList(rows[..i])
        invariant total == SubtotalSum(rows[..i], amount)
      {
        assert rows[..i + 1][..i] == rows[..i];
        items := items + [Arr(rows[i])];
        total := total + amount(Field(rows[i], "subtotal"));
        i := i + 1;
      }
      assert rows[..i] == rows;
    }

    /** getUserCartWithItems (app/Models/V1/Cart.php:129-138). */
    method GetUserCartWithItems(userId: Value, lookup: Option<seq<Dict>>, now: string, accepted: bool,
                                findAccepted: bool, withFindAccepted: bool, itemsReply: Option<seq<Dict>>,
                                amount: Value -> int)
      returns (r: Outcome<Option<Dict>>)
      requires Valid()
      modifies base.connection
      ensures base.connectionType == "pdo" ==> r == Fatal
      ensures base.connectionType == "mysqli" ==>
        var run := UserCartRun(base.driver, userId, lookup, now, accepted, findAccepted, withFindAccepted,
                               itemsReply, amount, old(base.connection.State()));
        r == Done(run.0) && base.connection.State() == run.1
    {
      var cart := GetOrCreate(userId, lookup, now, accepted, findAccepted);
      if cart.Fatal? {
        return Fatal;
      }
      if cart.value.None? {
        return Done(None);
      }
      r := GetWithItems(Field(cart.value.value, "id"), withFindAccepted, itemsReply, amount);
    }

    /** getItemCount (app/Models/V1/Cart.php:143-158). */
    method GetItemCount(userId: Value, lookup: Option<seq<Dict>>, countReply: Option<seq<Dict>>)
      returns (r: Outcome<int>)
      requires Valid()
      modifies base.connection
      ensures base.connectionType == "pdo" ==> r == Fatal
      ensures base.connectionType == "mysqli" ==>
        var run := ItemCountRun(base.driver, userId, lookup, countReply, old(base.connection.State()));
        r == Done(run.0) && base.connection.State() == run.1
    {
      var cart := GetByUserId(userId, lookup);
      if cart.Fatal? {
        return Fatal;
      }
      if cart.value.None? {
        return Done(0);
      }
      var result := base.FetchOne(ItemCountSql(Field(cart.value.value, "id")), countReply);
      if result.Fatal? {
        return Fatal;
      }
      r := Done(RowTotal(result.value));
    }

    /** getTotal (app/Models/V1/Cart.php:163-188). */
    method GetTotal(userId: Value, lookup: Option<seq<Dict>>, totalReply: Option<seq<Dict>>, amount: Value -> int)
      returns (r: Outcome<int>)
      requires Valid()
      modifies base.connection
      ensures base.connectionType == "pdo" ==> r == Fatal
      ensures base.connectionType == "mysqli" ==>
        var run := TotalRun(base.driver, userId, lookup, totalReply, amount, old(base.connection.State()));
        r == Done(run.0) && base.connection.State() == run.1
    {
      var cart := GetByUserId(userId, lookup);
      if cart.Fatal? {
        return Fatal;
      }
      if cart.value.None? {
        return Done(0);
      }
      var result := base.Query(TotalSql(Field(cart.value.value, "id")), totalReply);
      if result.Fatal? {
        return Fatal;
      }
      if result.value.None? {
        return Done(0);
      }
      var rows := result.value.value;
      var total := if rows == [] then Int(0) else Coalesce(rows[0], StrKey("total"), Int(0));
      r := Done(amount(total));
    }

    /** clearItems (app/Models/V1/Cart.php:193-206). */
    method ClearItems(cartId: Value, accepted: bool) returns (r: Outcome<bool>)
      requires Valid()
      modifies base.connection
      ensures base.connectionType == "pdo" ==> r == Fatal
      ensures base.connectionType == "mysqli" ==>
        var run := ClearRun(base.driver, cartId, accepted, old(base.connection.State()));
        r == Done(run.0) && base.connection.State() == run.1
    {
      if base.connectionType != "mysqli" {
        return Fatal;
      }
      var c := base.connection;
      c.sent := c.sent + [ClearSql(base.driver, cartId)];
      if !accepted {
        return Done(false);
      }
      c.store := DeleteWhere(c.store, "cart_items", InCart(cartId));
      r := Done(true);
    }

    /** deleteCart (app/Models/V1/Cart.php:210-217). */
    method DeleteCart(cartId: Value, clearAccepted: bool, deleteAccepted: bool) returns (r: Outcome<bool>)
      requires Valid()
      modifies base.connection
      ensures base.connectionType == "pdo" ==> r == Fatal
      ensures base.connectionType == "mysqli" ==>
        var run := DeleteCartRun(base.driver, cartId, clearAccepted, deleteAccepted, old(base.connection.State()));
        r == Done(run.0) && base.connection.State() == run.1
    {
      var cleared := ClearItems(cartId, clearAccepted);
      if cleared.Fatal? {
        return Fatal;
      }
      r := base.Delete(cartId, deleteAccepted);
    }
  }
}
