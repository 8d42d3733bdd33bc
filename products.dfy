// The Product model of app/Models/V1/Product.php: the stock updates with
// their floor at zero, the stock check, the category and brand listings
// built with the query builder, and the two joins with category and
// brand names.
module Products {
  import opened Wrappers
  import opened Strings
  import opened Php
  import opened Tables
  import opened Sql
  import opened Db
  import opened Models
  import opened Effects

  /** The folder the image URLs point into, below APP_URL. */
  const UploadsPath := "/public/uploads/products/"

  // ---------------------------------------------------------------
  // Stock
  // ---------------------------------------------------------------

  /** updateStock's change: the stock, and updated_at from update's stamp. */
  function StockChange(stock: Value, now: string): Dict
  {
    [Entry(StrKey("stock"), stock), Entry(StrKey("updated_at"), Str(now))]
  }

  /** update touches updateStock's data by appending updated_at. */
  lemma StockTouched(stock: Value, now: string)
    ensures Touched(true, [Entry(StrKey("stock"), stock)], now) == StockChange(stock, now)
  {
    PutNew([Entry(StrKey("stock"), stock)], Entry(StrKey("updated_at"), Str(now)));
  }

  /** updateStock: one UPDATE of the stock column. */
  function UpdateStockRun(d: Driver, id: Value, stock: Value, now: string, accepted: bool, st: ConnState)
    : (bool, ConnState)
  {
    (accepted, Updated(st, "products", "id", d, id, StockChange(stock, now), accepted))
  }

  /**
   * An accepted updateStock of a stored product sets its stock and keeps
   * every other column apart from updated_at.
   */
  lemma StockOnly(s: Store, k: int, stock: Value, now: string, col: Key)
    requires RowAt(s, "products", k).Some?
    ensures var s' := UpdateRow(s, "products", k, StockChange(stock, now));
      RowAt(s', "products", k).Some? &&
      Lookup(RowAt(s', "products", k).value, StrKey("stock")) == Some(stock) &&
      (col != StrKey("stock") && col != StrKey("updated_at") ==>
        Lookup(RowAt(s', "products", k).value, col) == Lookup(RowAt(s, "products", k).value, col))
  {
    var changes := StockChange(stock, now);
    AssignLookup(RowAt(s, "products", k).value, changes, col);
    assert UniqueKeys(changes);
    UpdatedColumn(s, "products", k, changes, StrKey("stock"));
    LookupFirst(changes, 0);
  }

  /** `max(0, $product['stock'] - $quantity)`. */
  function Floored(stock: int, quantity: int): (n: int)
    ensures n >= 0
    ensures stock >= quantity ==> n == stock - quantity
    ensures stock < quantity ==> n == 0
  {
    if stock - quantity > 0 then stock - quantity else 0
  }

  /** decreaseStock: find, then updateStock with the floored stock; a missing product is false. */
  function DecreaseRun(d: Driver, id: Value, quantity: int, now: string, findAccepted: bool, accepted: bool,
                       st: ConnState): (bool, ConnState)
  {
    var st1 := Sent(st, FindSql("products", "id", d, id));
    match FindAnswer(st, "products", id, findAccepted)
    case None => (false, st1)
    case Some(product) =>
      UpdateStockRun(d, id, Int(Floored(ToInt(Field(product, "stock")), quantity)), now, accepted, st1)
  }

  /** A product that find does not return: false, after the one SELECT, with nothing changed. */
  lemma DecreaseMissing(d: Driver, id: Value, quantity: int, now: string, findAccepted: bool, accepted: bool,
                        st: ConnState)
    requires FindAnswer(st, "products", id, findAccepted).None?
    ensures DecreaseRun(d, id, quantity, now, findAccepted, accepted, st) ==
            (false, Sent(st, FindSql("products", "id", d, id)))
  {
  }

  /**
   * A found product: an accepted decrease leaves its stock at the old
   * stock less the quantity, or 0 when that would be negative, so the
   * stored stock is never negative; no other column but updated_at moves.
   */
  lemma DecreaseFloor(d: Driver, id: Value, quantity: int, now: string, accepted: bool, st: ConnState, col: Key)
    requires Found(st.store, "products", id).Some?
    ensures var run := DecreaseRun(d, id, quantity, now, true, accepted, st);
      var old_ := ToInt(Field(Found(st.store, "products", id).value, "stock"));
      var k := RowKey(id);
      run.0 == accepted &&
      (accepted ==>
        RowAt(run.1.store, "products", k).Some? &&
        Lookup(RowAt(run.1.store, "products", k).value, StrKey("stock")) == Some(Int(Floored(old_, quantity))) &&
        Floored(old_, quantity) >= 0 &&
        (col != StrKey("stock") && col != StrKey("updated_at") ==>
          Lookup(RowAt(run.1.store, "products", k).value, col) == Lookup(RowAt(st.store, "products", k).value, col))) &&
      (!accepted ==> run.1.store == st.store)
  {
    var product := Found(st.store, "products", id).value;
    StockOnly(st.store, RowKey(id), Int(Floored(ToInt(Field(product, "stock")), quantity)), now, col);
  }

  /** `$product['stock'] >= $requestedQuantity` on a stored stock: null compares as false, the others as numbers. */
  predicate Covers(stock: Value, requested: int)
  {
    if stock == Null then requested == 0 else ToInt(stock) >= requested
  }

  /** checkStock: find; a missing product is false. */
  function CheckStockRun(d: Driver, id: Value, requested: int, findAccepted: bool, st: ConnState): (bool, ConnState)
  {
    (match FindAnswer(st, "products", id, findAccepted)
     case None => false
     case Some(product) => Covers(Field(product, "stock"), requested),
     Sent(st, FindSql("products", "id", d, id)))
  }

  /** checkStock is true exactly when find returns the product and its stock covers the request. */
  lemma CheckStockCases(d: Driver, id: Value, requested: int, findAccepted: bool, st: ConnState)
    ensures CheckStockRun(d, id, requested, findAccepted, st).0 <==>
      findAccepted && Found(st.store, "products", id).Some? &&
      Covers(Field(Found(st.store, "products", id).value, "stock"), requested)
    ensures CheckStockRun(d, id, requested, findAccepted, st).1.store == st.store
  {
  }

  /**
   * A passed checkStock means the decrease that follows needs no floor:
   * the stock becomes exactly the old stock less the quantity.
   */
  lemma CheckedDecreaseExact(d: Driver, id: Value, quantity: int, now: string, st: ConnState)
    requires CheckStockRun(d, id, quantity, true, st).0 && Field(Found(st.store, "products", id).value, "stock") != Null
    ensures var run := DecreaseRun(d, id, quantity, now, true, true, st);
      var old_ := ToInt(Field(Found(st.store, "products", id).value, "stock"));
      Lookup(RowAt(run.1.store, "products", RowKey(id)).value, StrKey("stock")) == Some(Int(old_ - quantity))
  {
    DecreaseFloor(d, id, quantity, now, true, st, StrKey("stock"));
  }

  // ---------------------------------------------------------------
  // Listings
  // ---------------------------------------------------------------

  /** The two conditions and the order getByCategory and getByBrand add to the builder. */
  function ListingWhere(column: string, id: Value): seq<Condition>
  {
    [Condition(column, "=", id), Condition("is_available", "=", Int(1))]
  }

  /** The two conditions become one WHERE of the column test AND is_available = 1. */
  lemma ListingWhereClause(d: Driver, column: string, id: Value)
    ensures WhereClause(d, ListingWhere(column, id)) ==
      " WHERE " + ConditionText(d, Condition(column, "=", id)) + " AND " +
      ConditionText(d, Condition("is_available", "=", Int(1)))
  {
    WhereClauseSnoc(d, [Condition(column, "=", id)], Condition("is_available", "=", Int(1)));
    WhereClauseSnoc(d, [], Condition(column, "=", id));
    assert [] + [Condition(column, "=", id)] == [Condition(column, "=", id)];
    assert [Condition(column, "=", id)] + [Condition("is_available", "=", Int(1))] == ListingWhere(column, id);
  }

  /**
   * On a cleared builder, getByCategory (column category_id) and
   * getByBrand (column brand_id) send one SELECT with the listing's WHERE,
   * ordered by rating DESC, with the caller's limit and offset.
   */
  lemma ListingSql(d: Driver, column: string, id: Value, limit: Value, offset: Value)
    ensures SelectSql("products", d, [] + ListingWhere(column, id), [] + ["rating " + Direction("DESC")], limit, offset) ==
      SelectHead("products") + WhereClause(d, ListingWhere(column, id)) + " ORDER BY rating DESC" +
      LimitClause(limit, offset)
  {
    assert Direction("DESC") == "DESC" by {
      assert ToUpper("DESC") == "DESC";
    }
    assert "rating " + "DESC" == "rating DESC";
    assert [] + ["rating DESC"] == ["rating DESC"];
    assert [] + ListingWhere(column, id) == ListingWhere(column, id);
    assert OrderByClause(["rating DESC"]) == " ORDER BY rating DESC" by {
      OrderByClauseSnoc([], "rating DESC");
      assert " ORDER BY " + "rating DESC" == " ORDER BY rating DESC";
    }
  }

  // ---------------------------------------------------------------
  // Joins with the category and brand names
  // ---------------------------------------------------------------

  /** getWithNames's join; the id goes into the text unescaped. */
  function WithNamesSql(id: Value): string
  {
    HandWritten("getWithNames", [ToStr(id)])
  }

  /**
   * getWithNames's answer: the image URL is added to a product with a
   * truthy main_image; a product without one gets the no-image URL, and
   * so does a missing product, which becomes a map of that key alone.
   */
  function WithImageUrl(appUrl: string, product: Option<Dict>): (r: Dict)
  {
    var key := StrKey("main_image_url");
    match product
    case Some(p) =>
      if Truthy(Field(p, "main_image")) then Put(p, key, Str(appUrl + UploadsPath + ToStr(Field(p, "main_image"))))
      else Put(p, key, Str(appUrl + UploadsPath + "no-image.png"))
    case None => Put([], key, Str(appUrl + UploadsPath + "no-image.png"))
  }

  /** A missing product gives the map holding only the no-image URL, never null. */
  lemma WithNamesMissing(appUrl: string)
    ensures WithImageUrl(appUrl, None) == [Entry(StrKey("main_image_url"), Str(appUrl + UploadsPath + "no-image.png"))]
  {
  }

  /**
   * A found product keeps every column and gains main_image_url: the
   * upload path of its image when it has one, else the no-image file.
   */
  lemma WithNamesFound(appUrl: string, p: Dict, col: Key)
    ensures var r := WithImageUrl(appUrl, Some(p));
      Lookup(r, StrKey("main_image_url")) ==
        Some(Str(appUrl + UploadsPath + (if Truthy(Field(p, "main_image")) then ToStr(Field(p, "main_image"))
                                         else "no-image.png"))) &&
      (col != StrKey("main_image_url") ==> Lookup(r, col) == Lookup(p, col))
  {
  }

  /**
   * The head of getAllWithNames's join, which ends in the white space
   * that closes the multi-line literal.
   */
  function AllWithNamesHead(): string
  {
    HandWritten("getAllWithNames", []) + " "
  }

  /** getAllWithNames's tail as written: OFFSET follows the limit with no space between. */
  function PageTextAsWritten(limit: Value, offset: Value): string
  {
    if !Truthy(limit) then ""
    else if Truthy(offset) then "LIMIT " + ToStr(limit) + "OFFSET " + ToStr(offset)
    else "LIMIT " + ToStr(limit)
  }

  /** getAllWithNames's statement as written. */
  function AllWithNamesSqlAsWritten(limit: Value, offset: Value): string
  {
    AllWithNamesHead() + PageTextAsWritten(limit, offset)
  }

  /** A limit of 10 and an offset of 20 end the statement in "LIMIT 10OFFSET 20", one token MySQL does not read. */
  lemma AllWithNamesGlued()
    ensures AllWithNamesSqlAsWritten(Int(10), Int(20)) == AllWithNamesHead() + "LIMIT 10OFFSET 20"
  {
    assert IntToString(10) == "10" && IntToString(20) == "20";
  }

  /** getAllWithNames's tail with the space before OFFSET. */
  function PageText(limit: Value, offset: Value): string
  {
    if !Truthy(limit) then ""
    else if Truthy(offset) then "LIMIT " + ToStr(limit) + " OFFSET " + ToStr(offset)
    else "LIMIT " + ToStr(limit)
  }

  /** getAllWithNames's statement with the space. */
  function AllWithNamesSql(limit: Value, offset: Value): string
  {
    AllWithNamesHead() + PageText(limit, offset)
  }

  /**
   * The tail with the space: nothing for a falsy limit, "LIMIT n" for a
   * falsy offset, and "LIMIT n OFFSET m" with both, the two clauses
   * apart; it differs from the text as written only when both are set.
   */
  lemma PageTextCases(limit: Value, offset: Value)
    ensures !Truthy(limit) ==> PageText(limit, offset) == ""
    ensures Truthy(limit) && !Truthy(offset) ==> PageText(limit, offset) == "LIMIT " + ToStr(limit)
    ensures Truthy(limit) && Truthy(offset) ==>
      PageText(limit, offset) == "LIMIT " + ToStr(limit) + " OFFSET " + ToStr(offset)
    ensures !(Truthy(limit) && Truthy(offset)) <==> PageText(limit, offset) == PageTextAsWritten(limit, offset)
  {
    if Truthy(limit) && Truthy(offset) {
      var w := PageText(limit, offset);
      var a := PageTextAsWritten(limit, offset);
      var n := |"LIMIT " + ToStr(limit)|;
      assert w[n] == ' ' && a[n] == 'O';
    }
  }

  class Product {
    const base: BaseModel

    predicate Valid()
    {
      base.Valid() && base.table == "products" && base.primaryKey == "id" && base.timestamps
    }

    constructor (rawUrl: string, db: Database, driver: Driver)
      requires db.Valid() && db.mysqliInitialized
      ensures Valid() && fresh(base) && base.Cleared()
      ensures base.apiVersion == DetectApiVersion(rawUrl) && base.driver == driver
      ensures base.connection == (if base.apiVersion == "v1" then db.mysqli else null)
    {
      base := new BaseModel("products", "id", true, rawUrl, db, driver);
    }

    /** getWithNames (app/Models/V1/Product.php:26-47). */
    method GetWithNames(id: Value, reply: Option<seq<Dict>>, appUrl: string) returns (r: Outcome<Dict>)
      requires Valid()
      modifies base.connection
      ensures base.connectionType == "pdo" ==> r == Fatal
      ensures base.connectionType == "mysqli" ==>
        r == Done(WithImageUrl(appUrl, FetchedRow(reply))) &&
        base.connection.State() == Sent(old(base.connection.State()), WithNamesSql(id))
    {
      var product := base.FetchOne(WithNamesSql(id), reply);
      if product.Fatal? {
        return Fatal;
      }
      var p := product.value;
      var key := StrKey("main_image_url");
      if p.Some? && Truthy(Field(p.value, "main_image")) {
        r := Done(Put(p.value, key, Str(appUrl + UploadsPath + ToStr(Field(p.value, "main_image")))));
      } else {
        var row := if p.Some? then p.value else [];
        r := Done(Put(row, key, Str(appUrl + UploadsPath + "no-image.png")));
      }
    }

    /** getAllWithNames (app/Models/V1/Product.php:51-70), sending the statement as written. */
    method GetAllWithNames(limit: Value, offset: Value, reply: Option<seq<Dict>>) returns (r: Outcome<seq<Dict>>)
      requires Valid()
      modifies base.connection
      ensures base.connectionType == "pdo" ==> r == Fatal
      ensures base.connectionType == "mysqli" ==>
        r == Done(RowsOf(reply)) &&
        base.connection.State() == Sent(old(base.connection.State()), AllWithNamesSqlAsWritten(limit, offset))
    {
      var sql := AllWithNamesHead();
      if Truthy(limit) {
        if Truthy(offset) {
          sql := sql + ("LIMIT " + ToStr(limit) + "OFFSET " + ToStr(offset));
        } else {
          sql := sql + ("LIMIT " + ToStr(limit));
        }
      }
      assert AllWithNamesHead() + "" == AllWithNamesHead();
      r := base.FetchAll(sql, reply);
    }

    /** getByCategory and getByBrand (app/Models/V1/Product.php:95-105): the builder chain and findAll. */
    method ListBy(column: string, id: Value, limit: Value, offset: Value, reply: Option<seq<Dict>>)
      returns (r: Outcome<seq<Dict>>)
      requires Valid()
      modifies base, base.connection
      ensures base.connectionType == "pdo" ==> r == Fatal
      ensures base.connectionType == "mysqli" ==>
        r == Done(RowsOf(reply)) && base.Cleared() &&
        base.connection.State() ==
          Sent(old(base.connection.State()),
               SelectSql("products", base.driver, old(base.where) + ListingWhere(column, id),
                         old(base.orderBy) + ["rating " + Direction("DESC")], limit, offset))
    {
      ghost var st0 := if base.connection != null then Some(base.connection.State()) else None;
      var b := base.Where(column, "=", id);
      b := b.Where("is_available", "=", Int(1));
      b := b.OrderBy("rating", "DESC");
      ghost var ws := old(base.where) + ListingWhere(column, id);
      ghost var os := old(base.orderBy) + ["rating " + Direction("DESC")];
      assert "rating" + " " == "rating ";
      assert base.where == ws && base.orderBy == os;
      assert base.connection != null ==> Some(base.connection.State()) == st0;
      r := b.FindAll(limit, offset, reply);
    }

    /** getByCategory (app/Models/V1/Product.php:95-99). */
    method GetByCategory(categoryId: Value, limit: Value, offset: Value, reply: Option<seq<Dict>>)
      returns (r: Outcome<seq<Dict>>)
      requires Valid()
      modifies base, base.connection
      ensures base.connectionType == "pdo" ==> r == Fatal
      ensures base.connectionType == "mysqli" ==>
        r == Done(RowsOf(reply)) && base.Cleared() &&
        base.connection.State() ==
          Sent(old(base.connection.State()),
               SelectSql("products", base.driver, old(base.where) + ListingWhere("category_id", categoryId),
                         old(base.orderBy) + ["rating " + Direction("DESC")], limit, offset))
    {
      r := ListBy("category_id", categoryId, limit, offset, reply);
    }

    /** getByBrand (app/Models/V1/Product.php:102-105). */
    method GetByBrand(brandId: Value, limit: Value, offset: Value, reply: Option<seq<Dict>>)
      returns (r: Outcome<seq<Dict>>)
      requires Valid()
      modifies base, base.connection
      ensures base.connectionType == "pdo" ==> r == Fatal
      ensures base.connectionType == "mysqli" ==>
        r == Done(RowsOf(reply)) && base.Cleared() &&
        base.connection.State() ==
          Sent(old(base.connection.State()),
               SelectSql("products", base.driver, old(base.where) + ListingWhere("brand_id", brandId),
                         old(base.orderBy) + ["rating " + Direction("DESC")], limit, offset))
    {
      r := ListBy("brand_id", brandId, limit, offset, reply);
    }

    /** updateStock (app/Models/V1/Product.php:150-153). */
    method UpdateStock(id: Value, stock: Value, now: string, accepted: bool) returns (r: Outcome<bool>)
      requires Valid()
      modifies base.connection
      ensures base.connectionType == "pdo" ==> r == Fatal
      ensures base.connectionType == "mysqli" ==>
        var run := UpdateStockRun(base.driver, id, stock, now, accepted, old(base.connection.State()));
        r == Done(run.0) && base.connection.State() == run.1
    {
      r := base.Update(id, [Entry(StrKey("stock"), stock)], now, accepted);
      StockTouched(stock, now);
    }

    /** decreaseStock (app/Models/V1/Product.php:156-168). */
    method DecreaseStock(id: Value, quantity: int, now: string, findAccepted: bool, accepted: bool)
      returns (r: Outcome<bool>)
      requires Valid()
      modifies base.connection
      ensures base.connectionType == "pdo" ==> r == Fatal
      ensures base.connectionType == "mysqli" ==>
        var run := DecreaseRun(base.driver, id, quantity, now, findAccepted, accepted, old(base.connection.State()));
        r == Done(run.0) && base.connection.State() == run.1
    {
      if base.connectionType != "mysqli" {
        return Fatal;
      }
      ghost var st0 := base.connection.State();
      var product := base.Find(id, findAccepted);
      if product.Fatal? {
        return Fatal;
      }
      assert product.value == FindAnswer(st0, "products", id, findAccepted);
      if product.value.None? {
        return Done(false);
      }
      var newStock := Floored(ToInt(Field(product.value.value, "stock")), quantity);
      r := UpdateStock(id, Int(newStock), now, accepted);
    }

    /** checkStock (app/Models/V1/Product.php:171-180). */
    method CheckStock(id: Value, findAccepted: bool, requested: int := 1) returns (r: Outcome<bool>)
      requires Valid()
      modifies base.connection
      ensures base.connectionType == "pdo" ==> r == Fatal
      ensures base.connectionType == "mysqli" ==>
        var run := CheckStockRun(base.driver, id, requested, findAccepted, old(base.connection.State()));
        r == Done(run.0) && base.connection.State() == run.1
    {
      var product := base.Find(id, findAccepted);
      if product.Fatal? {
        return Fatal;
      }
      if product.value.None? {
        return Done(false);
      }
      r := Done(Covers(Field(product.value.value, "stock"), requested));
    }
  }
}
