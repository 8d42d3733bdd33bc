// The Order model of app/Models/V1/Order.php: the status whitelists,
// cancellation, the order number, and the create and update calls it
// makes on the orders table through BaseModel.
module Orders {
  import opened Wrappers
  import opened Strings
  import opened Php
  import opened Tables
  import opened Sql
  import opened Db
  import opened Models

  /** The statuses updateStatus accepts. */
  const OrderStatuses: seq<string> := ["pending", "processing", "shipped", "delivered", "cancelled"]

  /** The payment statuses updatePaymentStatus accepts. */
  const PaymentStatuses: seq<string> := ["pending", "paid", "failed", "refunded"]

  /** The statuses an order can no longer be cancelled from. */
  const Settled: seq<string> := ["shipped", "delivered", "cancelled"]

  /** canBeCancelled: the status is not one of the settled ones, under in_array's loose comparison. */
  predicate CanBeCancelled(order: Dict)
  {
    !InList(Field(order, "status"), Settled)
  }

  /**
   * The whitelists under in_array's loose comparison: a string passes
   * exactly when it is listed, while an integer passes exactly when it
   * is 0, which PHP 7 finds equal to every name that starts with a letter.
   */
  lemma StatusWhitelists(s: string, i: int)
    ensures InList(Str(s), OrderStatuses) <==> s in OrderStatuses
    ensures InList(Int(i), OrderStatuses) <==> i == 0
    ensures InList(Str(s), PaymentStatuses) <==> s in PaymentStatuses
    ensures InList(Int(i), PaymentStatuses) <==> i == 0
  {
    assert forall t :: t in OrderStatuses ==> LetterFirst(t);
    assert forall t :: t in PaymentStatuses ==> LetterFirst(t);
    InListString(s, OrderStatuses);
    InListInt(i, OrderStatuses);
    InListString(s, PaymentStatuses);
    InListInt(i, PaymentStatuses);
  }

  /**
   * Of the statuses updateStatus accepts, exactly pending and processing
   * can be cancelled; an order without a status can too, while the
   * boolean true equals every non-empty string loosely and so cannot,
   * and an integer status can exactly when it is not 0.
   */
  lemma CancellableStatuses(order: Dict, s: string, i: int)
    ensures Field(order, "status") == Str(s) && s in OrderStatuses ==>
      (CanBeCancelled(order) <==> s == "pending" || s == "processing")
    ensures Field(order, "status") == Null ==> CanBeCancelled(order)
    ensures Field(order, "status") == Bool(true) ==> !CanBeCancelled(order)
    ensures Field(order, "status") == Int(i) ==> (CanBeCancelled(order) <==> i != 0)
  {
    assert forall t :: t in Settled ==> LetterFirst(t);
    InListString(s, Settled);
    InListInt(i, Settled);
    if Field(order, "status") == Bool(true) {
      assert LooseEquals(Bool(true), Str(Settled[0]));
    }
  }

  /** The order-number prefix, "ORD-" and the yyyymmdd date. */
  function OrderPrefix(date: string): string
  {
    "ORD-" + date + "-"
  }

  /** generateOrderNumber's count query, with the prefix in its LIKE pattern. */
  function CountPrefixSql(date: string): string
  {
    HandWritten("generateOrderNumber", [OrderPrefix(date)])
  }

  /** The prefix followed by count + 1, left-padded with zeros to 5 digits. */
  function OrderNumber(date: string, count: int): string
  {
    OrderPrefix(date) + PadLeft(IntToString(count + 1), 5, '0')
  }

  /**
   * An order number is the prefix and then at least five digits worth
   * count + 1: zeros in front of the decimal text of count + 1, which is
   * never cut short.
   */
  lemma OrderNumberShape(date: string, count: int)
    requires count >= 0
    ensures var n := OrderNumber(date, count);
      var p := OrderPrefix(date);
      var digits := NatToString(count + 1);
      StartsWith(n, p) &&
      var suffix := n[|p|..];
      |suffix| >= 5 && |suffix| >= |digits| && AllDigits(suffix) &&
      suffix[|suffix| - |digits|..] == digits && DigitsValue(suffix) == count + 1
  {
    var n := OrderNumber(date, count);
    var p := OrderPrefix(date);
    var digits := NatToString(count + 1);
    var suffix := PadLeft(digits, 5, '0');
    assert n == p + suffix;
    assert n[..|p|] == p && n[|p|..] == suffix;
    var z := suffix[..|suffix| - |digits|];
    assert suffix == z + digits;
    LeadingZeros(z, digits);
    DigitsOfNat(count + 1);
  }

  /** The array createOrder passes to create; its keys are distinct, so it is its entries in order. */
  function OrderRow(number: string, userId: Value, total: Value, paymentMethod: Value,
                    shippingAddress: Value, notes: Value): Dict
  {
    [Entry(StrKey("order_number"), Str(number)),
     Entry(StrKey("user_id"), userId),
     Entry(StrKey("total"), total),
     Entry(StrKey("status"), Str("pending")),
     Entry(StrKey("payment_method"), paymentMethod),
     Entry(StrKey("payment_status"), Str("pending")),
     Entry(StrKey("shipping_address"), shippingAddress),
     Entry(StrKey("notes"), notes)]
  }

  /** The order array sets status and payment_status to pending. */
  lemma OrderRowPending(number: string, userId: Value, total: Value, paymentMethod: Value,
                        shippingAddress: Value, notes: Value)
    ensures var data := OrderRow(number, userId, total, paymentMethod, shippingAddress, notes);
      Lookup(data, StrKey("status")) == Some(Str("pending")) &&
      Lookup(data, StrKey("payment_status")) == Some(Str("pending"))
  {
    var data := OrderRow(number, userId, total, paymentMethod, shippingAddress, notes);
    LookupFirst(data, 3);
    LookupFirst(data, 5);
  }

  /**
   * A created order is stored under the next id, holding that id, with
   * status and payment status both pending whatever the caller passed.
   */
  lemma NewOrderPending(s: Store, number: string, userId: Value, total: Value, paymentMethod: Value,
                        shippingAddress: Value, notes: Value, now: string)
    ensures var row := Stamped(true, OrderRow(number, userId, total, paymentMethod, shippingAddress, notes), now);
      var id := NextId(s, "orders");
      var stored := RowAt(Insert(s, "orders", "id", row), "orders", id);
      stored.Some? &&
      Lookup(stored.value, StrKey("id")) == Some(Int(id)) &&
      Lookup(stored.value, StrKey("status")) == Some(Str("pending")) &&
      Lookup(stored.value, StrKey("payment_status")) == Some(Str("pending"))
  {
    var row := Stamped(true, OrderRow(number, userId, total, paymentMethod, shippingAddress, notes), now);
    InsertNew(s, "orders", "id", row);
    OrderRowPending(number, userId, total, paymentMethod, shippingAddress, notes);
  }

  /**
   * updateStatus enforces no order between statuses: an accepted update
   * of an existing order stores the new status whatever the old one was,
   * a cancelled order included.
   */
  lemma StatusReplaced(s: Store, k: int, status: Value, now: string)
    requires RowAt(s, "orders", k).Some?
    ensures var changes := Touched(true, [Entry(StrKey("status"), status)], now);
      var after := RowAt(UpdateRow(s, "orders", k, changes), "orders", k);
      after.Some? && Lookup(after.value, StrKey("status")) == Some(status)
  {
    var data := [Entry(StrKey("status"), status)];
    var changes := Touched(true, data, now);
    LookupFirst(data, 0);
    if !Isset(data, StrKey("updated_at")) {
      assert UniqueKeys(data);
    }
    UpdatedColumn(s, "orders", k, changes, StrKey("status"));
  }

  class Order {
    const base: BaseModel

    predicate Valid()
    {
      base.Valid() && base.table == "orders" && base.primaryKey == "id" && base.timestamps
    }

    constructor (rawUrl: string, db: Database, driver: Driver)
      requires db.Valid() && db.mysqliInitialized
      ensures Valid() && fresh(base) && base.Cleared()
      ensures base.apiVersion == DetectApiVersion(rawUrl) && base.driver == driver
      ensures base.connection == (if base.apiVersion == "v1" then db.mysqli else null)
    {
      base := new BaseModel("orders", "id", true, rawUrl, db, driver);
    }

    /**
     * generateOrderNumber: the orders already carrying today's prefix are
     * counted, a failed query counting as none, and the next number follows.
     */
    method GenerateOrderNumber(date: string, reply: Option<seq<Dict>>) returns (r: Outcome<string>)
      requires Valid()
      modifies base.connection
      ensures base.connectionType == "pdo" ==> r == Fatal
      ensures base.connectionType == "mysqli" ==>
        base.SentAfter(old(base.connection.sent), old(base.connection.store), [CountPrefixSql(date)]) &&
        base.CountersKept() && r == Done(OrderNumber(date, CountOf(reply, "count")))
    {
      var prefix := OrderPrefix(date);
      var result := base.Query(CountPrefixSql(date), reply);
      if result.Fatal? {
        return Fatal;
      }
      var count := 0;
      if result.value.Some? {
        count := CountOf(result.value, "count");
      }
      var number := PadLeft(IntToString(count + 1), 5, '0');
      r := Done(prefix + number);
    }

    /** createOrder: a new number, then one create of the order as pending and unpaid. */
    method CreateOrder(userId: Value, total: Value, paymentMethod: Value, shippingAddress: Value, notes: Value,
                       date: string, now: string, countReply: Option<seq<Dict>>, accepted: bool)
      returns (r: Outcome<Value>)
      requires Valid()
      modifies base.connection
      ensures base.connectionType == "pdo" ==> r == Fatal
      ensures base.connectionType == "mysqli" ==> (
        var row := OrderRow(OrderNumber(date, CountOf(countReply, "count")), userId, total, paymentMethod,
                            shippingAddress, notes);
        var id := NextId(old(base.connection.store), "orders");
        base.CreatedAfter(old(base.connection.sent) + [CountPrefixSql(date)], old(base.connection.store),
                          row, now, accepted) &&
        base.connection.affectedRows == old(base.connection.affectedRows) &&
        (accepted ==> r == Done(Int(id)) && base.connection.insertId == id) &&
        (!accepted ==> r == Done(Bool(false)) && base.connection.insertId == old(base.connection.insertId)))
    {
      var number := GenerateOrderNumber(date, countReply);
      if number.Fatal? {
        return Fatal;
      }
      r := base.Create(OrderRow(number.value, userId, total, paymentMethod, shippingAddress, notes), now, accepted);
    }

    /**
     * updateStatus: a status outside the whitelist is refused before the
     * connection is touched; any listed one is written as it is.
     */
    method UpdateStatus(orderId: Value, status: Value, now: string, accepted: bool) returns (r: Outcome<bool>)
      requires Valid()
      modifies base.connection
      ensures !InList(status, OrderStatuses) ==>
        r == Done(false) && (base.connection != null ==> unchanged(base.connection))
      ensures InList(status, OrderStatuses) && base.connectionType == "pdo" ==> r == Fatal
      ensures InList(status, OrderStatuses) && base.connectionType == "mysqli" ==>
        base.UpdatedAfter(old(base.connection.sent), old(base.connection.store), orderId,
                          [Entry(StrKey("status"), status)], now, accepted) &&
        base.CountersKept() && r == Done(accepted)
    {
      if !InList(status, OrderStatuses) {
        return Done(false);
      }
      r := base.Update(orderId, [Entry(StrKey("status"), status)], now, accepted);
    }

    /** updatePaymentStatus: the same with the payment whitelist and column. */
    method UpdatePaymentStatus(orderId: Value, paymentStatus: Value, now: string, accepted: bool)
      returns (r: Outcome<bool>)
      requires Valid()
      modifies base.connection
      ensures !InList(paymentStatus, PaymentStatuses) ==>
        r == Done(false) && (base.connection != null ==> unchanged(base.connection))
      ensures InList(paymentStatus, PaymentStatuses) && base.connectionType == "pdo" ==> r == Fatal
      ensures InList(paymentStatus, PaymentStatuses) && base.connectionType == "mysqli" ==>
        base.UpdatedAfter(old(base.connection.sent), old(base.connection.store), orderId,
                          [Entry(StrKey("payment_status"), paymentStatus)], now, accepted) &&
        base.CountersKept() && r == Done(accepted)
    {
      if !InList(paymentStatus, PaymentStatuses) {
        return Done(false);
      }
      r := base.Update(orderId, [Entry(StrKey("payment_status"), paymentStatus)], now, accepted);
    }

    /**
     * cancelOrder: false for a missing order and for a settled one, with
     * only the find sent; otherwise the status becomes cancelled.
     */
    method CancelOrder(orderId: Value, now: string, findAccepted: bool, updateAccepted: bool)
      returns (r: Outcome<bool>)
      requires Valid()
      modifies base.connection
      ensures base.connectionType == "pdo" ==> r == Fatal
      ensures base.connectionType == "mysqli" ==> (
        var sent0 := old(base.connection.sent) + [FindSql("orders", "id", base.driver, orderId)];
        var order := if findAccepted then Found(old(base.connection.store), "orders", orderId) else None;
        base.CountersKept() &&
        (order.None? || !CanBeCancelled(order.value) ==>
          r == Done(false) && base.SentAfter(sent0, old(base.connection.store), [])) &&
        (order.Some? && CanBeCancelled(order.value) ==>
          r == Done(updateAccepted) &&
          base.UpdatedAfter(sent0, old(base.connection.store), orderId,
                            [Entry(StrKey("status"), Str("cancelled"))], now, updateAccepted)))
    {
      var order := base.Find(orderId, findAccepted);
      if order.Fatal? {
        return Fatal;
      }
      if order.value.None? {
        return Done(false);
      }
      if !CanBeCancelled(order.value.value) {
        return Done(false);
      }
      StatusWhitelists("cancelled", 0);
      r := UpdateStatus(orderId, Str("cancelled"), now, updateAccepted);
    }
  }
}
