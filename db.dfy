// The Database singleton of app/Core/Database.php: the static instance
// slot, the lazily opened mysqli handle, the PDO side that is never
// opened, and the connection-failure body handleConnectionError dies with.
module Db {
  import opened Wrappers
  import opened Php
  import opened Tables

  /** The DB_* constants and APP_ENV the connection code reads. */
  datatype Settings = Settings(host: string, name: string, user: string, pass: string,
                               charset: string, appEnv: string)

  /**
   * What `new \mysqli(...)` reports: no connect_error, with the database
   * as the new connection sees it, or the error text and errno.
   */
  datatype ConnectResult = Accepted(content: Store) | Refused(error: string, code: int)

  /** What a connection holds, as a value: its database, the statements sent, the counters. */
  datatype ConnState = ConnState(sent: seq<string>, store: Store, insertId: int, affectedRows: int)

  /**
   * A mysqli connection: the database behind it, the statements sent on
   * it in order, and the driver's counters.
   */
  class Connection {
    var store: Store
    var sent: seq<string>
    var insertId: int
    var affectedRows: int

    constructor (content: Store)
      ensures store == content && sent == [] && insertId == 0 && affectedRows == 0
    {
      store := content;
      sent := [];
      insertId := 0;
      affectedRows := 0;
    }

    /** The connection's fields as one value. */
    function State(): ConnState
      reads this
    {
      ConnState(sent, store, insertId, affectedRows)
    }
  }

  /**
   * The JSON handleConnectionError dies with (app/Core/Database.php:234-266):
   * details in development, a fixed message otherwise. The keys of each
   * array literal are distinct, so the array is its entries in order.
   */
  function ConnectionErrorBody(kind: string, error: string, code: int, s: Settings): (body: Dict)
  {
    if s.appEnv == "development" then
      [Entry(StrKey("success"), Bool(false)),
       Entry(StrKey("message"), Str(kind + " connection failed")),
       Entry(StrKey("error"), Str(error)),
       Entry(StrKey("error_code"), Int(code)),
       Entry(StrKey("database"), Str(s.name)),
       Entry(StrKey("host"), Str(s.host))]
    else
      [Entry(StrKey("success"), Bool(false)),
       Entry(StrKey("message"), Str("Service temporarily unavailable. Please try again later.")),
       Entry(StrKey("support"), Str("If this persists, please contact support."))]
  }

  /**
   * Every connection failure reports success false; only development
   * mode reveals the error, its code, the database and the host, and
   * the production body does not depend on the failure at all.
   */
  lemma ConnectionErrorShape(kind: string, error: string, code: int, s: Settings)
    ensures var body := ConnectionErrorBody(kind, error, code, s);
      Lookup(body, StrKey("success")) == Some(Bool(false)) &&
      (s.appEnv == "development" ==> (
        Lookup(body, StrKey("error")) == Some(Str(error)) &&
        Lookup(body, StrKey("error_code")) == Some(Int(code)) &&
        Lookup(body, StrKey("database")) == Some(Str(s.name)) &&
        Lookup(body, StrKey("host")) == Some(Str(s.host)))) &&
      (s.appEnv != "development" ==> (
        !HasKey(body, StrKey("error")) && !HasKey(body, StrKey("host")) &&
        forall kind', error', code' :: ConnectionErrorBody(kind', error', code', s) == body))
  {
    if s.appEnv == "development" {
      DevErrorShape(kind, error, code, s);
    } else {
      ProdErrorShape(kind, error, code, s);
    }
  }

  lemma DevErrorShape(kind: string, error: string, code: int, s: Settings)
    requires s.appEnv == "development"
    ensures var body := ConnectionErrorBody(kind, error, code, s);
      Lookup(body, StrKey("success")) == Some(Bool(false)) &&
      Lookup(body, StrKey("error")) == Some(Str(error)) &&
      Lookup(body, StrKey("error_code")) == Some(Int(code)) &&
      Lookup(body, StrKey("database")) == Some(Str(s.name)) &&
      Lookup(body, StrKey("host")) == Some(Str(s.host))
  {
    var body := ConnectionErrorBody(kind, error, code, s);
    LookupFirst(body, 0);
    LookupFirst(body, 2);
    LookupFirst(body, 3);
    LookupFirst(body, 4);
    LookupFirst(body, 5);
  }

  lemma ProdErrorShape(kind: string, error: string, code: int, s: Settings)
    requires s.appEnv != "development"
    ensures var body := ConnectionErrorBody(kind, error, code, s);
      Lookup(body, StrKey("success")) == Some(Bool(false)) &&
      !HasKey(body, StrKey("error")) && !HasKey(body, StrKey("host")) &&
      forall kind', error', code' :: ConnectionErrorBody(kind', error', code', s) == body
  {
    var body := ConnectionErrorBody(kind, error, code, s);
    LookupFirst(body, 0);
  }

  class Database {
    var mysqli: Connection?
    var pdo: Connection?
    var mysqliInitialized: bool
    var pdoInitialized: bool

    /**
     * The state every Database keeps: an initialised mysqli side has a
     * handle, and the PDO side is never opened.
     */
    predicate Valid()
      reads this
    {
      (mysqliInitialized ==> mysqli != null) && pdo == null && !pdoInitialized
    }

    /** The fields before the private constructor runs initializeMySQLi. */
    constructor ()
      ensures Valid() && mysqli == null && !mysqliInitialized
    {
      mysqli := null;
      pdo := null;
      mysqliInitialized := false;
      pdoInitialized := false;
    }

    /**
     * initializeMySQLi: a no-op once initialised; otherwise a new
     * connection is made, and a refused one dies with the error body.
     */
    method InitializeMySQLi(s: Settings, server: ConnectResult) returns (died: Option<Dict>)
      requires Valid()
      modifies this
      ensures Valid() && pdo == old(pdo)
      ensures old(mysqliInitialized) ==> died.None? && mysqli == old(mysqli) && mysqliInitialized
      ensures !old(mysqliInitialized) ==> mysqli != null && fresh(mysqli)
      ensures !old(mysqliInitialized) && server.Accepted? ==>
        died.None? && mysqliInitialized && mysqli.store == server.content && mysqli.sent == []
      ensures !old(mysqliInitialized) && server.Refused? ==>
        died == Some(ConnectionErrorBody("MySQLi", server.error, server.code, s)) && !mysqliInitialized
    {
      if mysqliInitialized {
        return None;
      }
      mysqli := new Connection(if server.Accepted? then server.content else EmptyStore);
      if server.Refused? {
        return Some(ConnectionErrorBody("MySQLi", server.error, server.code, s));
      }
      mysqliInitialized := true;
      died := None;
    }

    /** getMySQLi: connects on first use, then hands back the same handle. */
    method GetMySQLi(s: Settings, server: ConnectResult) returns (h: Connection?, died: Option<Dict>)
      requires Valid()
      modifies this
      ensures Valid() && h == mysqli
      ensures old(mysqliInitialized) ==> died.None? && h == old(mysqli) && mysqliInitialized
      ensures !old(mysqliInitialized) ==> (h != null && fresh(h) &&
        (server.Accepted? <==> died.None?) && (died.None? ==> mysqliInitialized))
    {
      died := None;
      if !mysqliInitialized {
        died := InitializeMySQLi(s, server);
      }
      h := mysqli;
    }

    /** getPDO has an empty body, so it returns null. */
    method GetPDO() returns (p: Connection?)
      ensures p == null
    {
      p := null;
    }

    /** affectedRows: the driver's counter, or 0 with no connection. */
    function AffectedRows(): (n: int)
      requires Valid()
      reads this, mysqli
      ensures !mysqliInitialized ==> n == 0
      ensures mysqliInitialized ==> n == mysqli.affectedRows
    {
      if mysqliInitialized then mysqli.affectedRows else 0
    }

    /** lastInsertId: the mysqli driver's id, else 0. */
    function LastInsertId(): (n: int)
      requires Valid()
      reads this, mysqli
      ensures !mysqliInitialized ==> n == 0
      ensures mysqliInitialized ==> n == mysqli.insertId
    {
      // the PDO branch is never taken: pdoInitialized stays false
      if mysqliInitialized then mysqli.insertId else 0
    }

    /** close: drops the handle, clears both flags and empties the instance slot. */
    method Close(slot: Registry)
      requires Valid()
      modifies this, slot
      ensures Valid() && !mysqliInitialized && !pdoInitialized
      ensures old(mysqliInitialized) ==> mysqli == null
      ensures !old(mysqliInitialized) ==> mysqli == old(mysqli)
      ensures slot.instance == null
    {
      if mysqliInitialized && mysqli != null {
        mysqli := null;
        mysqliInitialized := false;
      }
      // the PDO branch is never taken: pdoInitialized stays false
      slot.instance := null;
    }
  }

  /** The static `Database::$instance`. */
  class Registry {
    var instance: Database?

    predicate Valid()
      reads this, instance
    {
      instance != null ==> instance.Valid() && instance.mysqliInitialized
    }

    constructor ()
      ensures instance == null && Valid()
    {
      instance := null;
    }

    /**
     * getInstance: builds, and so connects, only when the slot is empty;
     * otherwise the stored instance is returned untouched.
     */
    method GetInstance(s: Settings, server: ConnectResult) returns (db: Database?, died: Option<Dict>)
      requires Valid()
      modifies this
      ensures Valid()
      ensures old(instance) != null ==> died.None? && db == old(instance) && instance == old(instance)
      ensures old(instance) == null ==> (died.None? <==> server.Accepted?)
      ensures old(instance) == null && died.None? ==>
        db != null && fresh(db) && fresh(db.mysqli) && instance == db && db.mysqliInitialized &&
        db.mysqli.store == server.content && db.mysqli.sent == []
      ensures died.Some? ==> died.value == ConnectionErrorBody("MySQLi", server.error, server.code, s)
    {
      if instance == null {
        var d := new Database();
        died := d.InitializeMySQLi(s, server);
        if died.Some? {
          return null, died;
        }
        instance := d;
      } else {
        died := None;
      }
      db := instance;
    }
  }

  /** After close, the next getInstance builds a new object and connects afresh. */
  method ReconnectAfterClose(slot: Registry, s: Settings, content: Store) returns (again: Database?)
    requires slot.Valid() && slot.instance != null
    modifies slot, slot.instance
    ensures again != null && again != old(slot.instance) && fresh(again) && fresh(again.mysqli)
    ensures slot.instance == again && again.mysqliInitialized
  {
    var first := slot.instance;
    first.Close(slot);
    var died;
    again, died := slot.GetInstance(s, Accepted(content));
  }
}
