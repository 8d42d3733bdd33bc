// The CartItem model of app/Models/V1/CartItem.php: adding a product to a
// cart (merged into the existing line when there is one), changing and
// removing a line, the stock check, and the validation before checkout.
module CartItems {
  import opened Wrappers
  import opened Php
  import opened Tables
  import opened Sql
  import opened Db
  import opened Models
  import opened Effects

  /** checkStock's statement, with the escaped product id. */
  function StockSql(d: Driver, productId: Value): string
  {
    "SELECT stock FROM products WHERE id = '" + d.escape(ToStr(productId)) + "' LIMIT 1"
  }

  /** checkStock's answer: no row (or a failed query) is false, else `(int)$row['stock'] >= $requested`. */
  function StockEnough(reply: Option<seq<Dict>>, requested: int): bool
  {
    match FetchedRow(reply)
    case None => false
    case Some(row) => ToInt(Field(row, "stock")) >= requested
  }

  /** checkStock holds exactly when the query gave a product row whose stock covers the request. */
  lemma StockEnoughCases(reply: Option<seq<Dict>>, requested: int)
    ensures StockEnough(reply, requested) <==>
      reply.Some? && reply.value != [] && reply.value[0] != [] &&
      ToInt(Field(reply.value[0], "stock")) >= requested
  {
  }

  /** findByCartAndProduct's statement, with both ids escaped. */
  function FindItemSql(d: Driver, cartId: Value, productId: Value): string
  {
    HandWritten("findByCartAndProduct", [d.escape(ToStr(cartId)), d.escape(ToStr(productId))])
  }

  /** getByCart's join over cart_items and products, with the escaped cart id. */
  function ByCartSql(d: Driver, cartId: Value): string
  {
    HandWritten("getByCart", [d.escape(ToStr(cartId))])
  }

  /** The row addItem inserts: its four columns and the two stamps create adds. */
  function NewItemRow(cartId: Value, productId: Value, quantity: int, price: Value, now: string): Dict
  {
    [Entry(StrKey("cart_id"), cartId), Entry(StrKey("product_id"), productId),
     Entry(StrKey("quantity"), Int(quantity)), Entry(StrKey("price"), price),
     Entry(StrKey("created_at"), Str(now)), Entry(StrKey("updated_at"), Str(now))]
  }

  /** The data addItem gives create. */
  function ItemData(cartId: Value, productId: Value, quantity: int, price: Value): Dict
  {
    [Entry(StrKey("cart_id"), cartId), Entry(StrKey("product_id"), productId),
     Entry(StrKey("quantity"), Int(quantity)), Entry(StrKey("price"), price)]
  }

  /** create stamps addItem's data by appending the two stamps after its four columns. */
  lemma NewItemStamped(cartId: Value, productId: Value, quantity: int, price: Value, now: string)
    ensures Stamped(true, ItemData(cartId, productId, quantity, price), now) ==
            NewItemRow(cartId, productId, quantity, price, now)
  {
    var d0 := ItemData(cartId, productId, quantity, price);
    assert forall i :: 0 <= i < |d0| ==> d0[i].key.s[0] != 'u' && d0[i].key.s != "created_at";
    PutNew(d0, Entry(StrKey("created_at"), Str(now)));
    var d1 := d0 + [Entry(StrKey("created_at"), Str(now))];
    assert forall i :: 0 <= i < |d1| ==> d1[i].key.s[0] != 'u';
    PutNew(d1, Entry(StrKey("updated_at"), Str(now)));
  }

  /** The change updateQuantity's update makes: the quantity, and updated_at from the stamp. */
  function QuantityChange(quantity: int, now: string): Dict
  {
    [Entry(StrKey("quantity"), Int(quantity)), Entry(StrKey("updated_at"), Str(now))]
  }

  /** update touches updateQuantity's data by appending updated_at. */
  lemma QuantityTouched(quantity: int, now: string)
    ensures Touched(true, [Entry(StrKey("quantity"), Int(quantity))], now) == QuantityChange(quantity, now)
  {
    PutNew([Entry(StrKey("quantity"), Int(quantity))], Entry(StrKey("updated_at"), Str(now)));
  }

  /** updateQuantity: a quantity of 0 or less deletes the line, any other updates its quantity. */
  function UpdateQuantityRun(d: Driver, itemId: Value, quantity: int, now: string, accepted: bool,
                             st: ConnState): (bool, ConnState)
  {
    if quantity <= 0 then (accepted, Deleted(st, "cart_items", "id", d, itemId, accepted))
    else (accepted, Updated(st, "cart_items", "id", d, itemId, QuantityChange(quantity, now), accepted))
  }

  /**
   * An update of a stored line writes the new quantity and the stamp and
   * keeps every other column, the line's id included.
   */
  lemma QuantityOnly(s: Store, k: int, quantity: int, now: string, col: Key)
    requires RowAt(s, "cart_items", k).Some?
    ensures var s' := UpdateRow(s, "cart_items", k, QuantityChange(quantity, now));
      RowAt(s', "cart_items", k).Some? &&
      Lookup(RowAt(s', "cart_items", k).value, StrKey("quantity")) == Some(Int(quantity)) &&
      (col != StrKey("quantity") && col != StrKey("updated_at") ==>
        Lookup(RowAt(s', "cart_items", k).value, col) == Lookup(RowAt(s, "cart_items", k).value, col))
  {
    var changes := QuantityChange(quantity, now);
    var row := RowAt(s, "cart_items", k).value;
    AssignLookup(row, changes, col);
    AssignLookup(row, changes, StrKey("quantity"));
    assert UniqueKeys(changes);
    LastValueUnique(changes, StrKey("quantity"));
    LookupFirst(changes, 0);
  }

  /** addItem's merge: the existing line gets old + requested; the answer is its id, or false. */
  function MergeRun(d: Driver, line: Dict, quantity: int, now: string, accepted: bool, st: ConnState)
    : (Value, ConnState)
  {
    var run := UpdateQuantityRun(d, Field(line, "id"), ToInt(Field(line, "quantity")) + quantity, now, accepted, st);
    (if run.0 then Field(line, "id") else Bool(false), run.1)
  }

  /** addItem's create: the new line, whose id is the answer, or false. */
  function NewLineRun(d: Driver, cartId: Value, productId: Value, quantity: int, price: Value, now: string,
                      accepted: bool, st: ConnState): (Value, ConnState)
  {
    (if accepted then Int(NextId(st.store, "cart_items")) else Bool(false),
     Created(st, "cart_items", "id", d, NewItemRow(cartId, productId, quantity, price, now), accepted))
  }

  /**
   * addItem after a passed stock check: the line of this cart and
   * product, when there is one, is merged, and otherwise a new line is
   * created.
   */
  function PlaceRun(d: Driver, cartId: Value, productId: Value, quantity: int, price: Value,
                    existingReply: Option<seq<Dict>>, now: string, accepted: bool, st: ConnState): (Value, ConnState)
  {
    var st1 := Sent(st, FindItemSql(d, cartId, productId));
    match FetchedRow(existingReply)
    case Some(line) => MergeRun(d, line, quantity, now, accepted, st1)
    case None => NewLineRun(d, cartId, productId, quantity, price, now, accepted, st1)
  }

  /** addItem: the stock check on the requested quantity, then the line is placed. */
  function AddItemRun(d: Driver, cartId: Value, productId: Value, quantity: int, price: Value,
                      stockReply: Option<seq<Dict>>, existingReply: Option<seq<Dict>>, now: string,
                      accepted: bool, st: ConnState): (Value, ConnState)
  {
    var st1 := Sent(st, StockSql(d, productId));
    if !StockEnough(stockReply, quantity) then (Bool(false), st1)
    else PlaceRun(d, cartId, productId, quantity, price, existingReply, now, accepted, st1)
  }

  /** Not enough stock for the request: false, with only the stock query sent and nothing stored. */
  lemma AddItemRefused(d: Driver, cartId: Value, productId: Value, quantity: int, price: Value,
                       stockReply: Option<seq<Dict>>, existingReply: Option<seq<Dict>>, now: string,
                       accepted: bool, st: ConnState)
    requires !StockEnough(stockReply, quantity)
    ensures AddItemRun(d, cartId, productId, quantity, price, stockReply, existingReply, now, accepted, st) ==
            (Bool(false), Sent(st, StockSql(d, productId)))
  {
  }

  /**
   * A line for the cart and product exists and the merged quantity is
   * positive: that line is updated to old + requested and no line is
   * created (the counter stays); addItem answers the line's id, or false
   * when the update was refused.
   */
  lemma AddItemMerged(d: Driver, cartId: Value, productId: Value, quantity: int, price: Value,
                      stockReply: Option<seq<Dict>>, existingReply: Option<seq<Dict>>, now: string,
                      accepted: bool, st: ConnState)
    requires StockEnough(stockReply, quantity) && FetchedRow(existingReply).Some?
    requires ToInt(Field(FetchedRow(existingReply).value, "quantity")) + quantity > 0
    ensures var run := AddItemRun(d, cartId, productId, quantity, price, stockReply, existingReply, now,
                                  accepted, st);
      var line := FetchedRow(existingReply).value;
      var merged := ToInt(Field(line, "quantity")) + quantity;
      run.0 == (if accepted then Field(line, "id") else Bool(false)) &&
      run.1.store == (if accepted then UpdateRow(st.store, "cart_items", RowKey(Field(line, "id")),
                                                 QuantityChange(merged, now))
                      else st.store) &&
      run.1.store.counters == st.store.counters && run.1.insertId == st.insertId
  {
  }

  /**
   * The check does not look at the merged total: a line of 4 and a
   * request of 3 against a stock of 5 passes, and the line becomes 7.
   */
  lemma MergePassesOverStock(d: Driver, cartId: Value, productId: Value, price: Value, now: string,
                             st: ConnState)
    ensures var stockReply := Some([[Entry(StrKey("stock"), Int(5))]]);
      var line := [Entry(StrKey("id"), Int(1)), Entry(StrKey("quantity"), Int(4))];
      var run := AddItemRun(d, cartId, productId, 3, price, stockReply, Some([line]), now, true, st);
      StockEnough(stockReply, 3) && run.0 == Int(1) &&
      run.1.store == UpdateRow(st.store, "cart_items", 1, QuantityChange(7, now)) && 7 > 5
  {
    var stockReply := Some([[Entry(StrKey("stock"), Int(5))]]);
    var line := [Entry(StrKey("id"), Int(1)), Entry(StrKey("quantity"), Int(4))];
    LookupFirst(stockReply.value[0], 0);
    LookupFirst(line, 0);
    LookupFirst(line, 1);
    AddItemMerged(d, cartId, productId, 3, price, stockReply, Some([line]), now, true, st);
  }

  /**
   * No line for the cart and product (or a failed lookup): one INSERT of
   * cart_id, product_id, quantity, price and the stamps; an accepted one
   * stores the line under the next id, which addItem answers.
   */
  lemma AddItemNew(d: Driver, cartId: Value, productId: Value, quantity: int, price: Value,
                   stockReply: Option<seq<Dict>>, existingReply: Option<seq<Dict>>, now: string,
                   accepted: bool, st: ConnState)
    requires StockEnough(stockReply, quantity) && FetchedRow(existingReply).None?
    ensures var run := AddItemRun(d, cartId, productId, quantity, price, stockReply, existingReply, now,
                                  accepted, st);
      var row := NewItemRow(cartId, productId, quantity, price, now);
      var id := NextId(st.store, "cart_items");
      Columns(row) == ["cart_id", "product_id", "quantity", "price", "created_at", "updated_at"] &&
      run.0 == (if accepted then Int(id) else Bool(false)) &&
      run.1.store == (if accepted then Insert(st.store, "cart_items", "id", row) else st.store) &&
      (accepted ==> RowAt(run.1.store, "cart_items", id) == Some(Put(row, StrKey("id"), Int(id))))
  {
    if accepted {
      InsertNew(st.store, "cart_items", "id", NewItemRow(cartId, productId, quantity, price, now));
    }
  }

  // ---------------------------------------------------------------
  // validateCartItems
  // ---------------------------------------------------------------

  /** `!$item['product_available']`: a missing product joins as null, which is unavailable too. */
  predicate Unavailable(item: Dict)
  {
    !Truthy(Field(item, "product_available"))
  }

  /**
   * `$item['quantity'] > $item['product_stock']` on the values the join
   * returns, numeric strings or null: a null stock compares as "", which
   * every non-empty quantity exceeds; otherwise the numbers are compared.
   */
  predicate Exceeds(quantity: Value, stock: Value)
  {
    if stock == Null then ToStr(quantity) != ""
    else if quantity == Null then false
    else ToInt(quantity) > ToInt(stock)
  }

  predicate OverStock(item: Dict)
  {
    Exceeds(Field(item, "quantity"), Field(item, "product_stock"))
  }

  /** The errors one item adds: unavailability first, then the stock, each with the product's name. */
  function ItemErrors(item: Dict): (errors: seq<string>)
  {
    var name := ToStr(Field(item, "product_name"));
    (if Unavailable(item) then [name + " is no longer available"] else []) +
    (if OverStock(item) then [name + " only has " + ToStr(Field(item, "product_stock")) + " in stock"] else [])
  }

  /** An item adds one error per failed check, so both at once add two. */
  lemma ItemErrorsCount(item: Dict)
    ensures |ItemErrors(item)| == (if Unavailable(item) then 1 else 0) + (if OverStock(item) then 1 else 0)
    ensures ItemErrors(item) == [] <==> Passes(item)
  {
  }

  /** The errors of the foreach over the items, in order. */
  function CartErrors(items: seq<Dict>): seq<string>
  {
    if items == [] then [] else CartErrors(items[..|items| - 1]) + ItemErrors(items[|items| - 1])
  }

  /** An item that is available and covered by its stock. */
  predicate Passes(item: Dict)
  {
    !Unavailable(item) && !OverStock(item)
  }

  /** Every item passes. */
  predicate AllPass(items: seq<Dict>)
  {
    forall i :: 0 <= i < |items| ==> Passes(items[i])
  }

  /** All items pass exactly when all but the last do and the last does. */
  lemma AllPassSnoc(items: seq<Dict>)
    requires items != []
    ensures AllPass(items) <==> AllPass(items[..|items| - 1]) && Passes(items[|items| - 1])
  {
    var front := items[..|items| - 1];
    assert forall i :: 0 <= i < |front| ==> front[i] == items[i];
  }

  /** No errors at all exactly when every item is available and covered by its stock. */
  lemma {:induction false} CartErrorsNone(items: seq<Dict>)
    ensures CartErrors(items) == [] <==> AllPass(items)
    decreases |items|
  {
    if items != [] {
      var front := items[..|items| - 1];
      var last := items[|items| - 1];
      CartErrorsNone(front);
      ItemErrorsCount(last);
      AllPassSnoc(items);
      assert CartErrors(items) == CartErrors(front) + ItemErrors(last);
    }
  }

  /** One more item appends its own errors. */
  lemma CartErrorsSnoc(items: seq<Dict>, i: int)
    requires 0 <= i < |items|
    ensures CartErrors(items[..i + 1]) == CartErrors(items[..i]) + ItemErrors(items[i])
  {
    assert items[..i + 1][..i] == items[..i];
  }

  /** The list the errors become. */
  function ErrorList(errors: seq<string>): (vs: seq<Value>)
    ensures |vs| == |errors| && forall i :: 0 <= i < |errors| ==> vs[i] == Str(errors[i])
  {
    seq(|errors|, i requires 0 <= i < |errors| => Str(errors[i]))
  }

  /** validateCartItems's answer. */
  function ValidationBody(errors: seq<string>): Dict
  {
    [Entry(StrKey("valid"), Bool(errors == [])), Entry(StrKey("errors"), Arr(ListOf(ErrorList(errors))))]
  }

  /**
   * The validation is valid exactly when every item of the cart passes
   * both checks, and lists one error per failed check.
   */
  lemma ValidationVerdict(items: seq<Dict>)
    ensures var body := ValidationBody(CartErrors(items));
      Lookup(body, StrKey("valid")) == Some(Bool(AllPass(items))) &&
      Lookup(body, StrKey("errors")) == Some(Arr(ListOf(ErrorList(CartErrors(items)))))
  {
    CartErrorsNone(items);
    var body := ValidationBody(CartErrors(items));
    LookupFirst(body, 0);
    LookupFirst(body, 1);
  }

  class CartItem {
    const base: BaseModel

    predicate Valid()
    {
      base.Valid() && base.table == "cart_items" && base.primaryKey == "id" && base.timestamps
    }

    constructor (rawUrl: string, db: Database, driver: Driver)
      requires db.Valid() && db.mysqliInitialized
      ensures Valid() && fresh(base) && base.Cleared()
      ensures base.apiVersion == DetectApiVersion(rawUrl) && base.driver == driver
      ensures base.connection == (if base.apiVersion == "v1" then db.mysqli else null)
    {
      base := new BaseModel("cart_items", "id", true, rawUrl, db, driver);
    }

    /** checkStock (app/Models/V1/CartItem.php:144-164). */
    method CheckStock(productId: Value, requested: int, reply: Option<seq<Dict>>) returns (r: Outcome<bool>)
      requires Valid()
      modifies base.connection
      ensures base.connectionType == "pdo" ==> r == Fatal
      ensures base.connectionType == "mysqli" ==>
        r == Done(StockEnough(reply, requested)) &&
        base.connection.State() == Sent(old(base.connection.State()), StockSql(base.driver, productId))
    {
      var result := base.Query(StockSql(base.driver, productId), reply);
      if result.Fatal? {
        return Fatal;
      }
      if result.value.None? {
        return Done(false);
      }
      var row := FetchedRow(result.value);
      if row.None? {
        return Done(false);
      }
      r := Done(ToInt(Field(row.value, "stock")) >= requested);
    }

    /** findByCartAndProduct (app/Models/V1/CartItem.php:48-70). */
    method FindByCartAndProduct(cartId: Value, productId: Value, reply: Option<seq<Dict>>)
      returns (r: Outcome<Option<Dict>>)
      requires Valid()
      modifies base.connection
      ensures base.connectionType == "pdo" ==> r == Fatal
      ensures base.connectionType == "mysqli" ==>
        r == Done(FetchedRow(reply)) &&
        base.connection.State() == Sent(old(base.connection.State()), FindItemSql(base.driver, cartId, productId))
    {
      var result := base.Query(FindItemSql(base.driver, cartId, productId), reply);
      if result.Fatal? {
        return Fatal;
      }
      if result.value.None? {
        return Done(None);
      }
      r := Done(FetchedRow(result.value));
    }

    /** updateQuantity (app/Models/V1/CartItem.php:73-83). */
    method UpdateQuantity(itemId: Value, quantity: int, now: string, accepted: bool) returns (r: Outcome<bool>)
      requires Valid()
      modifies base.connection
      ensures base.connectionType == "pdo" ==> r == Fatal
      ensures base.connectionType == "mysqli" ==>
        var run := UpdateQuantityRun(base.driver, itemId, quantity, now, accepted, old(base.connection.State()));
        r == Done(run.0) && base.connection.State() == run.1
    {
      if quantity <= 0 {
        r := base.Delete(itemId, accepted);
        return;
      }
      r := base.Update(itemId, [Entry(StrKey("quantity"), Int(quantity))], now, accepted);
      QuantityTouched(quantity, now);
    }

    /** removeItem (app/Models/V1/CartItem.php:87-90). */
    method RemoveItem(itemId: Value, accepted: bool) returns (r: Outcome<bool>)
      requires Valid()
      modifies base.connection
      ensures base.connectionType == "pdo" ==> r == Fatal
      ensures base.connectionType == "mysqli" ==>
        r == Done(accepted) &&
        base.connection.State() == Deleted(old(base.connection.State()), "cart_items", "id", base.driver, itemId, accepted)
    {
      r := base.Delete(itemId, accepted);
    }

    /** addItem's create: the new line's row. */
    method CreateLine(cartId: Value, productId: Value, quantity: int, price: Value, now: string, accepted: bool)
      returns (r: Outcome<Value>)
      requires Valid()
      modifies base.connection
      ensures base.connectionType == "pdo" ==> r == Fatal
      ensures base.connectionType == "mysqli" ==>
        var run := NewLineRun(base.driver, cartId, productId, quantity, price, now, accepted,
                              old(base.connection.State()));
        r == Done(run.0) && base.connection.State() == run.1
    {
      r := base.Create(ItemData(cartId, productId, quantity, price), now, accepted);
      NewItemStamped(cartId, productId, quantity, price, now);
    }

    /** addItem's update of an existing line to old + requested. */
    method MergeLine(line: Dict, quantity: int, now: string, accepted: bool) returns (r: Outcome<Value>)
      requires Valid()
      modifies base.connection
      ensures base.connectionType == "pdo" ==> r == Fatal
      ensures base.connectionType == "mysqli" ==>
        var run := MergeRun(base.driver, line, quantity, now, accepted, old(base.connection.State()));
        r == Done(run.0) && base.connection.State() == run.1
    {
      if base.connectionType != "mysqli" {
        return Fatal;
      }
      ghost var st0 := base.connection.State();
      var newQuantity := ToInt(Field(line, "quantity")) + quantity;
      var success := UpdateQuantity(Field(line, "id"), newQuantity, now, accepted);
      if success.Fatal? {
        return Fatal;
      }
      r := Done(if success.value then Field(line, "id") else Bool(false));
      assert MergeRun(base.driver, line, quantity, now, accepted, st0).0 == r.value;
    }

    /** addItem after its stock check (app/Models/V1/CartItem.php:28-44). */
    method PlaceItem(cartId: Value, productId: Value, quantity: int, price: Value,
                     existingReply: Option<seq<Dict>>, now: string, accepted: bool)
      returns (r: Outcome<Value>)
      requires Valid()
      modifies base.connection
      ensures base.connectionType == "pdo" ==> r == Fatal
      ensures base.connectionType == "mysqli" ==>
        var run := PlaceRun(base.driver, cartId, productId, quantity, price, existingReply, now, accepted,
                            old(base.connection.State()));
        r == Done(run.0) && base.connection.State() == run.1
    {
      if base.connectionType != "mysqli" {
        return Fatal;
      }
      ghost var st0 := base.connection.State();
      var existing := FindByCartAndProduct(cartId, productId, existingReply);
      if existing.Fatal? {
        return Fatal;
      }
      ghost var st1 := Sent(st0, FindItemSql(base.driver, cartId, productId));
      if existing.value.Some? {
        r := MergeLine(existing.value.value, quantity, now, accepted);
        assert PlaceRun(base.driver, cartId, productId, quantity, price, existingReply, now, accepted, st0) ==
               MergeRun(base.driver, existing.value.value, quantity, now, accepted, st1);
        return;
      }
      r := CreateLine(cartId, productId, quantity, price, now, accepted);
      assert PlaceRun(base.driver, cartId, productId, quantity, price, existingReply, now, accepted, st0) ==
             NewLineRun(base.driver, cartId, productId, quantity, price, now, accepted, st1);
    }

    /** addItem (app/Models/V1/CartItem.php:21-45). */
    method AddItem(cartId: Value, productId: Value, quantity: int, price: Value,
                   stockReply: Option<seq<Dict>>, existingReply: Option<seq<Dict>>, now: string, accepted: bool)
      returns (r: Outcome<Value>)
      requires Valid()
      modifies base.connection
      ensures base.connectionType == "pdo" ==> r == Fatal
      ensures base.connectionType == "mysqli" ==>
        var run := AddItemRun(base.driver, cartId, productId, quantity, price, stockReply, existingReply, now,
                              accepted, old(base.connection.State()));
        r == Done(run.0) && base.connection.State() == run.1
    {
      var enough := CheckStock(productId, quantity, stockReply);
      if enough.Fatal? {
        return Fatal;
      }
      if !enough.value {
        return Done(Bool(false));
      }
      r := PlaceItem(cartId, productId, quantity, price, existingReply, now, accepted);
    }

    /** getByCart (app/Models/V1/CartItem.php:118-140): every row of the join, none when it failed. */
    method GetByCart(cartId: Value, reply: Option<seq<Dict>>) returns (r: Outcome<seq<Dict>>)
      requires Valid()
      modifies base.connection
      ensures base.connectionType == "pdo" ==> r == Fatal
      ensures base.connectionType == "mysqli" ==>
        r == Done(RowsOf(reply)) &&
        base.connection.State() == Sent(old(base.connection.State()), ByCartSql(base.driver, cartId))
    {
      r := base.FetchAll(ByCartSql(base.driver, cartId), reply);
    }

    /** The two checks of validateCartItems's foreach on one item, in order. */
    method CheckItem(item: Dict) returns (found: seq<string>)
      ensures found == ItemErrors(item)
    {
      found := [];
      var name := ToStr(Field(item, "product_name"));
      if !Truthy(Field(item, "product_available")) {
        found := found + [name + " is no longer available"];
      }
      if Exceeds(Field(item, "quantity"), Field(item, "product_stock")) {
        found := found + [name + " only has " + ToStr(Field(item, "product_stock")) + " in stock"];
      }
    }

    /** The foreach of validateCartItems: each item's errors appended in order. */
    method CollectErrors(items: seq<Dict>) returns (errors: seq<string>)
      ensures errors == CartErrors(items)
    {
      errors := [];
      var i := 0;
      while i < |items|
        invariant 0 <= i <= |items|
        invariant errors == CartErrors(items[..i])
      {
        var found := CheckItem(items[i]);
        CartErrorsSnoc(items, i);
        errors := errors + found;
        i := i + 1;
      }
      assert items[..i] == items;
    }

    /** validateCartItems (app/Models/V1/CartItem.php:168-189). */
    method ValidateCartItems(cartId: Value, reply: Option<seq<Dict>>) returns (r: Outcome<Dict>)
      requires Valid()
      modifies base.connection
      ensures base.connectionType == "pdo" ==> r == Fatal
      ensures base.connectionType == "mysqli" ==>
        r == Done(ValidationBody(CartErrors(RowsOf(reply)))) &&
        base.connection.State() == Sent(old(base.connection.State()), ByCartSql(base.driver, cartId))
    {
      var items := GetByCart(cartId, reply);
      if items.Fatal? {
        return Fatal;
      }
      var errors := CollectErrors(items.value);
      r := Done([Entry(StrKey("valid"), Bool(errors == [])), Entry(StrKey("errors"), Arr(ListOf(ErrorList(errors))))]);
    }
  }
}
