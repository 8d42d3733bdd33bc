/**
 * What the router does with particular requests against the table of
 * config/routes.php.  Each query is proved in layers: a scan of one half
 * of the literal table on literal arguments, the same fact for a request
 * given as a string, and then the combination through V1Resolved.
 */
module RouteQueries {
  import opened Wrappers
  import opened Strings
  import opened Php
  import opened Routes
  import opened Router
  import opened RoutingFacts

  // ---------------------------------------------------------------
  // Splitting concrete paths and matching concrete routes
  // ---------------------------------------------------------------

  lemma SplitPath2(path: string, a: string, b: string)
    requires '/' !in a && '/' !in b && path == "/" + a + "/" + b
    ensures Split(path, '/') == ["", a, b]
  {
    var ts := ["", a, b];
    assert forall p :: p in ts ==> p == "" || p == a || p == b;
    assert NoneContains(ts, '/');
    SplitJoin(ts, '/');
    assert ts[1..] == [a, b];
    assert [a, b][1..] == [b];
    assert Implode([b], "/") == b;
    assert Implode([a, b], "/") == a + "/" + b;
    assert Implode(ts, "/") == "" + "/" + Implode([a, b], "/");
    assert "" + "/" + (a + "/" + b) == "/" + a + "/" + b;
  }

  lemma SplitPath3(path: string, a: string, b: string, c: string)
    requires '/' !in a && '/' !in b && '/' !in c && path == "/" + a + "/" + b + "/" + c
    ensures Split(path, '/') == ["", a, b, c]
  {
    var ts := ["", a, b, c];
    assert forall p :: p in ts ==> p == "" || p == a || p == b || p == c;
    assert NoneContains(ts, '/');
    SplitJoin(ts, '/');
    assert ts[1..] == [a, b, c];
    assert [a, b, c][1..] == [b, c];
    assert [b, c][1..] == [c];
    assert Implode([c], "/") == c;
    assert Implode([b, c], "/") == b + "/" + c;
    assert Implode([a, b, c], "/") == a + "/" + (b + "/" + c);
    assert Implode(ts, "/") == "" + "/" + Implode([a, b, c], "/");
    assert "" + "/" + (a + "/" + (b + "/" + c)) == "/" + a + "/" + b + "/" + c;
  }

  /** A route of two fixed words matches exactly those words and captures nothing. */
  lemma NoCapture(r: Route, a: Word, b: Word, reqMethod: string)
    requires r.path == [W(a), W(b)] && ParseVerb(reqMethod) == Some(r.verb)
    ensures RouteMatch(r, reqMethod, ["", a, b]) == Some([])
  {
    var q := ["", a, b];
    assert q[1..] == [a, b] && q[1..][1..] == [b] && q[1..][1..][1..] == [];
    assert r.path[1..] == [W(b)] && r.path[1..][1..] == [];
    assert MatchPieces([], []) == Some([]);
    assert MatchPieces([W(b)], [b]) == Some([]);
  }

  /** "/w/{id}" captures its second segment as id. */
  lemma TailCapture(r: Route, w: Word, reqMethod: string, x: string)
    requires r.path == [W(w), Id] && ParseVerb(reqMethod) == Some(r.verb) && x != ""
    ensures RouteMatch(r, reqMethod, ["", w, x]) == Some([Entry(StrKey("id"), Str(x))])
  {
    var q := ["", w, x];
    var e := Entry(StrKey("id"), Str(x));
    assert q[1..] == [w, x] && q[1..][1..] == [x];
    assert r.path[1..] == [Id];
    assert [Id][1..] == [] && [x][1..] == [];
    assert PieceMatches(Id, x) && PieceName(Id) == "id";
    assert MatchPieces([], []) == Some([]);
    assert [e] + [] == [e];
    assert MatchPieces([Id], [x]) == Some([e]);
    assert MatchPieces(r.path, q[1..]) == MatchPieces([Id], [x]);
  }

  /** "/a/{id}/b" captures its middle segment as id. */
  lemma MiddleCapture(r: Route, a: Word, b: Word, reqMethod: string, x: string)
    requires r.path == [W(a), Id, W(b)] && ParseVerb(reqMethod) == Some(r.verb) && x != ""
    ensures RouteMatch(r, reqMethod, ["", a, x, b]) == Some([Entry(StrKey("id"), Str(x))])
  {
    var q := ["", a, x, b];
    var e := Entry(StrKey("id"), Str(x));
    assert q[1..] == [a, x, b] && q[1..][1..] == [x, b] && q[1..][1..][1..] == [b];
    assert r.path[1..] == [Id, W(b)] && r.path[1..][1..] == [W(b)];
    assert [W(b)][1..] == [] && [b][1..] == [];
    assert MatchPieces([], []) == Some([]);
    assert MatchPieces([W(b)], [b]) == Some([]);
    assert PieceMatches(Id, x) && PieceName(Id) == "id";
    assert [e] + [] == [e];
    assert MatchPieces([Id, W(b)], [x, b]) == Some([e]);
    assert MatchPieces(r.path, q[1..]) == MatchPieces([Id, W(b)], [x, b]);
  }

  // ---------------------------------------------------------------
  // The versions (config/routes.php lines 25, 138-160)
  // ---------------------------------------------------------------

  lemma RoutesOfEntries(t: Dict)
    ensures RoutesOf(t) == [Entry(StrKey("v1"), Arr(t)), Entry(StrKey("v2"), Arr([])), Entry(StrKey("v3"), Arr([]))]
  {
    var e1, e2, e3 := Entry(StrKey("v1"), Arr(t)), Entry(StrKey("v2"), Arr([])), Entry(StrKey("v3"), Arr([]));
    var es := [e1, e2, e3];
    assert es[1..] == [e2, e3] && [e2, e3][1..] == [e3] && [e3][1..] == [];
    PutNew([], e1);
    assert [] + [e1] == [e1];
    PutNew([e1], e2);
    PutNew([e1, e2], e3);
    assert [e1] + [e2] == [e1, e2] && [e1, e2] + [e3] == [e1, e2, e3];
    assert Assign([e1, e2, e3], []) == [e1, e2, e3];
    assert Assign([e1, e2], [e3]) == [e1, e2, e3];
    assert Assign([e1], [e2, e3]) == [e1, e2, e3];
    assert Assign([], es) == [e1, e2, e3];
  }

  /** The file's v1 entry is the table given; its v2 and v3 entries are empty arrays. */
  lemma VersionTablesOf(t: Dict)
    ensures VersionRoutes(RoutesOf(t), "v1") == t
    ensures VersionRoutes(RoutesOf(t), "v2") == [] && VersionRoutes(RoutesOf(t), "v3") == []
    ensures VersionRoutes(RoutesOf(t), "v4") == []
  {
    RoutesOfEntries(t);
    var d := RoutesOf(t);
    assert IndexOfKey(d, StrKey("v1")) == 0;
    assert IndexOfKey(d, StrKey("v2")) == 1;
    assert d[1..] == [d[1], d[2]] && d[1..][1..] == [d[2]] && d[1..][1..][1..] == [];
    assert IndexOfKey(d[1..][1..], StrKey("v3")) == 0;
    assert IndexOfKey(d, StrKey("v3")) == 2;
    assert IndexOfKey(d, StrKey("v4")) == -1;
  }

  /** The router's v1 table is the file's v1 literal. */
  lemma V1Version(reqMethod: string, path: string)
    ensures MatchRoute(RoutesConfig, "v1", reqMethod, path) == Match(V1Table, reqMethod, path)
  {
    VersionTablesOf(V1Table);
  }

  /** Every request the router resolves to v2 or v3 finds no handler. */
  lemma LaterVersionsEmpty(version: string, reqMethod: string, path: string)
    requires version == "v2" || version == "v3"
    ensures MatchRoute(RoutesConfig, version, reqMethod, path) == None
  {
    VersionTablesOf(V1Table);
  }

  // ---------------------------------------------------------------
  // The repeated reviews block (config/routes.php lines 49-54, 113-118)
  // ---------------------------------------------------------------

  /** LastHandler over the entries before the repeated block, group by group. */
  function BeforeRepeatLast(verb: Verb, path: seq<Piece>): Option<string>
  {
    LastIn(UserRoutes, verb, path)
      .Else(LastIn(OrderRoutes, verb, path))
      .Else(LastIn(CartRoutes, verb, path))
      .Else(LastIn(BrandRoutes, verb, path))
      .Else(V1FrontLast(verb, path))
  }

  lemma BeforeRepeatLastHandler(verb: Verb, path: seq<Piece>)
    ensures LastHandler(V1BeforeRepeat, verb, path) == BeforeRepeatLast(verb, path)
  {
    V1FrontLastHandler(verb, path);
    var rs := V1Front;
    LastHandlerAppend(rs, ToSeq(BrandRoutes), verb, path);
    LastInIsLastHandler(BrandRoutes, verb, path);
    rs := rs + ToSeq(BrandRoutes);
    LastHandlerAppend(rs, ToSeq(CartRoutes), verb, path);
    LastInIsLastHandler(CartRoutes, verb, path);
    rs := rs + ToSeq(CartRoutes);
    LastHandlerAppend(rs, ToSeq(OrderRoutes), verb, path);
    LastInIsLastHandler(OrderRoutes, verb, path);
    rs := rs + ToSeq(OrderRoutes);
    LastHandlerAppend(rs, ToSeq(UserRoutes), verb, path);
    LastInIsLastHandler(UserRoutes, verb, path);
  }

  lemma RepeatHeld0()
    ensures var r := ToSeq(ReviewRepeatRoutes)[0]; BeforeRepeatLast(r.verb, r.path) == Some(r.handler)
  {}
  lemma RepeatHeld1()
    ensures var r := ToSeq(ReviewRepeatRoutes)[1]; BeforeRepeatLast(r.verb, r.path) == Some(r.handler)
  {}
  lemma RepeatHeld2()
    ensures var r := ToSeq(ReviewRepeatRoutes)[2]; BeforeRepeatLast(r.verb, r.path) == Some(r.handler)
  {}
  lemma RepeatHeld3()
    ensures var r := ToSeq(ReviewRepeatRoutes)[3]; BeforeRepeatLast(r.verb, r.path) == Some(r.handler)
  {}
  lemma RepeatHeld4()
    ensures var r := ToSeq(ReviewRepeatRoutes)[4]; BeforeRepeatLast(r.verb, r.path) == Some(r.handler)
  {}
  lemma RepeatHeld5()
    ensures var r := ToSeq(ReviewRepeatRoutes)[5]; BeforeRepeatLast(r.verb, r.path) == Some(r.handler)
  {}

  lemma RepeatKnownFirstHalf(i: nat)
    requires i < 3
    ensures var r := ToSeq(ReviewRepeatRoutes)[i]; BeforeRepeatLast(r.verb, r.path) == Some(r.handler)
  {
    if i == 0 { RepeatHeld0(); }
    else if i == 1 { RepeatHeld1(); }
    else { RepeatHeld2(); }
  }

  lemma RepeatKnownSecondHalf(i: nat)
    requires 3 <= i < 6
    ensures var r := ToSeq(ReviewRepeatRoutes)[i]; BeforeRepeatLast(r.verb, r.path) == Some(r.handler)
  {
    if i == 3 { RepeatHeld3(); }
    else if i == 4 { RepeatHeld4(); }
    else { RepeatHeld5(); }
  }

  /** Each repeated entry's key already holds, before the block, the same handler. */
  lemma RepeatKnown(i: nat)
    requires i < |ToSeq(ReviewRepeatRoutes)|
    ensures var r := ToSeq(ReviewRepeatRoutes)[i]; LastHandler(V1BeforeRepeat, r.verb, r.path) == Some(r.handler)
  {
    var r := ToSeq(ReviewRepeatRoutes)[i];
    BeforeRepeatLastHandler(r.verb, r.path);
    if i < 3 { RepeatKnownFirstHalf(i); } else { RepeatKnownSecondHalf(i); }
  }

  lemma Regroup<T>(f: seq<T>, b: seq<T>, c: seq<T>, o: seq<T>, u: seq<T>, r: seq<T>, s: seq<T>, t: seq<T>)
    ensures f + (b + c + o + u + r + s + t) == (f + b + c + o + u) + r + (s + t)
  {
  }

  lemma LiteralAroundRepeat()
    ensures V1Literal == V1BeforeRepeat + ToSeq(ReviewRepeatRoutes) + V1AfterRepeat
  {
    Regroup(V1Front, ToSeq(BrandRoutes), ToSeq(CartRoutes), ToSeq(OrderRoutes), ToSeq(UserRoutes),
      ToSeq(ReviewRepeatRoutes), ToSeq(SearchRoutes), ToSeq(TestRoutes));
  }

  /**
   * Lines 113-118 change nothing: the v1 table is the one the file gives
   * without them, so each of those keys keeps the position it got at lines
   * 49-54, with the same handler.
   */
  lemma RepeatChangesNothing()
    ensures V1Table == Literal(Entries(V1Unrepeated))
  {
    var rep := ToSeq(ReviewRepeatRoutes);
    forall i | 0 <= i < |rep|
      ensures LastHandler(V1BeforeRepeat, rep[i].verb, rep[i].path) == Some(rep[i].handler)
    {
      RepeatKnown(i);
    }
    RepeatHeld(V1BeforeRepeat, rep, V1AfterRepeat);
    LiteralAroundRepeat();
  }

  // ---------------------------------------------------------------
  // GET /products/search (config/routes.php lines 36-37)
  // ---------------------------------------------------------------

  lemma SearchScan()
    ensures V1FrontFirst("GET", ["", "products", "search"]) == Some(ProductSearch)
  {}
  lemma SearchLastBack()
    ensures V1BackLast(ProductSearch.verb, ProductSearch.path) == None
  {}
  lemma SearchLastFront()
    ensures V1FrontLast(ProductSearch.verb, ProductSearch.path) == Some(ProductSearch.handler)
  {}

  lemma SearchCapturesAt()
    ensures RouteMatch(ProductSearch, "GET", ["", "products", "search"]) == Some([])
  {
    NoCapture(ProductSearch, "products", "search", "GET");
  }

  lemma SearchFirst(reqMethod: string, path: string)
    requires reqMethod == "GET" && path == "/products/search"
    ensures V1FrontFirst(reqMethod, Split(path, '/')) == Some(ProductSearch)
  {
    SplitPath2(path, "products", "search");
    SearchScan();
  }

  lemma SearchCaptures(reqMethod: string, path: string)
    requires reqMethod == "GET" && path == "/products/search"
    ensures RouteMatch(ProductSearch, reqMethod, Split(path, '/')) == Some([])
  {
    SplitPath2(path, "products", "search");
    SearchCapturesAt();
  }

  /** "/products/search" is taken by the search entry, which comes before "/products/{id}". */
  lemma ProductSearchRoute(reqMethod: string, path: string)
    requires reqMethod == "GET" && path == "/products/search"
    ensures Match(V1Table, reqMethod, path) == Some(Hit(Str("V1\\ProductController@search"), []))
  {
    SearchFirst(reqMethod, path);
    SearchCaptures(reqMethod, path);
    SearchLastBack();
    SearchLastFront();
    V1Resolved(reqMethod, path, ProductSearch, ProductSearch.handler, []);
  }

  // ---------------------------------------------------------------
  // GET /products/42 (config/routes.php line 37)
  // ---------------------------------------------------------------

  lemma ShowScan()
    ensures V1FrontFirst("GET", ["", "products", "42"]) == Some(ProductShow)
  {}
  lemma ShowLastBack()
    ensures V1BackLast(ProductShow.verb, ProductShow.path) == None
  {}
  lemma ShowLastFront()
    ensures V1FrontLast(ProductShow.verb, ProductShow.path) == Some(ProductShow.handler)
  {}

  lemma ShowCapturesAt()
    ensures RouteMatch(ProductShow, "GET", ["", "products", "42"]) == Some([Entry(StrKey("id"), Str("42"))])
  {
    TailCapture(ProductShow, "products", "GET", "42");
  }

  lemma ShowFirst(reqMethod: string, path: string)
    requires reqMethod == "GET" && path == "/products/42"
    ensures V1FrontFirst(reqMethod, Split(path, '/')) == Some(ProductShow)
  {
    SplitPath2(path, "products", "42");
    ShowScan();
  }

  lemma ShowCaptures(reqMethod: string, path: string)
    requires reqMethod == "GET" && path == "/products/42"
    ensures RouteMatch(ProductShow, reqMethod, Split(path, '/')) == Some([Entry(StrKey("id"), Str("42"))])
  {
    SplitPath2(path, "products", "42");
    ShowCapturesAt();
  }

  lemma ProductShowRoute(reqMethod: string, path: string)
    requires reqMethod == "GET" && path == "/products/42"
    ensures Match(V1Table, reqMethod, path) ==
      Some(Hit(Str("V1\\ProductController@show"), [Entry(StrKey("id"), Str("42"))]))
  {
    ShowFirst(reqMethod, path);
    ShowCaptures(reqMethod, path);
    ShowLastBack();
    ShowLastFront();
    V1Resolved(reqMethod, path, ProductShow, ProductShow.handler, [Entry(StrKey("id"), Str("42"))]);
  }

  // ---------------------------------------------------------------
  // GET /products/42/reviews (config/routes.php lines 37, 49)
  // ---------------------------------------------------------------

  lemma ReviewsScan()
    ensures V1FrontFirst("GET", ["", "products", "42", "reviews"]) == Some(ReviewIndex)
  {}
  lemma ReviewsLast()
    ensures V1BackLast(ReviewIndex.verb, ReviewIndex.path) == Some(ReviewIndex.handler)
  {}
  lemma ReviewsCapturesAt()
    ensures RouteMatch(ReviewIndex, "GET", ["", "products", "42", "reviews"]) == Some([Entry(StrKey("id"), Str("42"))])
  {
    MiddleCapture(ReviewIndex, "products", "reviews", "GET", "42");
  }

  lemma ReviewsFirst(reqMethod: string, path: string)
    requires reqMethod == "GET" && path == "/products/42/reviews"
    ensures V1FrontFirst(reqMethod, Split(path, '/')) == Some(ReviewIndex)
  {
    SplitPath3(path, "products", "42", "reviews");
    ReviewsScan();
  }

  lemma ReviewsCaptures(reqMethod: string, path: string)
    requires reqMethod == "GET" && path == "/products/42/reviews"
    ensures RouteMatch(ReviewIndex, reqMethod, Split(path, '/')) == Some([Entry(StrKey("id"), Str("42"))])
  {
    SplitPath3(path, "products", "42", "reviews");
    ReviewsCapturesAt();
  }

  /** The reviews of a product go to the review controller; the anchored match keeps show out. */
  lemma ProductReviewsRoute(reqMethod: string, path: string)
    requires reqMethod == "GET" && path == "/products/42/reviews"
    ensures Match(V1Table, reqMethod, path) ==
      Some(Hit(Str("V1\\ReviewController@index"), [Entry(StrKey("id"), Str("42"))]))
  {
    ReviewsFirst(reqMethod, path);
    ReviewsCaptures(reqMethod, path);
    ReviewsLast();
    V1Resolved(reqMethod, path, ReviewIndex, ReviewIndex.handler, [Entry(StrKey("id"), Str("42"))]);
  }

  // ---------------------------------------------------------------
  // GET and PUT /orders/7/status (config/routes.php lines 93, 97)
  // ---------------------------------------------------------------

  lemma StatusScanFront()
    ensures V1FrontFirst("GET", ["", "orders", "7", "status"]) == None
  {}
  lemma StatusScanBack()
    ensures V1BackFirst("GET", ["", "orders", "7", "status"]) == Some(OrderStatus)
  {}
  lemma StatusLast()
    ensures V1BackLast(OrderStatus.verb, OrderStatus.path) == Some(OrderStatus.handler)
  {}
  lemma StatusCapturesAt()
    ensures RouteMatch(OrderStatus, "GET", ["", "orders", "7", "status"]) == Some([Entry(StrKey("id"), Str("7"))])
  {
    MiddleCapture(OrderStatus, "orders", "status", "GET", "7");
  }

  lemma StatusFirst(reqMethod: string, path: string)
    requires reqMethod == "GET" && path == "/orders/7/status"
    ensures V1FrontFirst(reqMethod, Split(path, '/')) == None
    ensures V1BackFirst(reqMethod, Split(path, '/')) == Some(OrderStatus)
  {
    SplitPath3(path, "orders", "7", "status");
    StatusScanFront();
    StatusScanBack();
  }

  lemma StatusCaptures(reqMethod: string, path: string)
    requires reqMethod == "GET" && path == "/orders/7/status"
    ensures RouteMatch(OrderStatus, reqMethod, Split(path, '/')) == Some([Entry(StrKey("id"), Str("7"))])
  {
    SplitPath3(path, "orders", "7", "status");
    StatusCapturesAt();
  }

  lemma GetOrderStatusRoute(reqMethod: string, path: string)
    requires reqMethod == "GET" && path == "/orders/7/status"
    ensures Match(V1Table, reqMethod, path) ==
      Some(Hit(Str("V1\\OrderController@status"), [Entry(StrKey("id"), Str("7"))]))
  {
    StatusFirst(reqMethod, path);
    StatusCaptures(reqMethod, path);
    StatusLast();
    V1Resolved(reqMethod, path, OrderStatus, OrderStatus.handler, [Entry(StrKey("id"), Str("7"))]);
  }

  lemma UpdateScanFront()
    ensures V1FrontFirst("PUT", ["", "orders", "7", "status"]) == None
  {}
  lemma UpdateScanBrands()
    ensures FirstIn(BrandRoutes, "PUT", ["", "orders", "7", "status"]) == None
  {}
  lemma UpdateScanCart()
    ensures FirstIn(CartRoutes, "PUT", ["", "orders", "7", "status"]) == None
  {}
  lemma UpdateScanOrders()
    ensures FirstIn(OrderRoutes, "PUT", ["", "orders", "7", "status"]) == Some(OrderUpdateStatus)
  {}
  lemma UpdateScanBack()
    ensures V1BackFirst("PUT", ["", "orders", "7", "status"]) == Some(OrderUpdateStatus)
  {
    UpdateScanBrands();
    UpdateScanCart();
    UpdateScanOrders();
  }
  lemma UpdateLast()
    ensures V1BackLast(OrderUpdateStatus.verb, OrderUpdateStatus.path) == Some(OrderUpdateStatus.handler)
  {}
  lemma UpdateCapturesAt()
    ensures RouteMatch(OrderUpdateStatus, "PUT", ["", "orders", "7", "status"]) == Some([Entry(StrKey("id"), Str("7"))])
  {
    MiddleCapture(OrderUpdateStatus, "orders", "status", "PUT", "7");
  }

  lemma UpdateFirst(reqMethod: string, path: string)
    requires reqMethod == "PUT" && path == "/orders/7/status"
    ensures V1FrontFirst(reqMethod, Split(path, '/')) == None
    ensures V1BackFirst(reqMethod, Split(path, '/')) == Some(OrderUpdateStatus)
  {
    SplitPath3(path, "orders", "7", "status");
    UpdateScanFront();
    UpdateScanBack();
  }

  lemma UpdateCaptures(reqMethod: string, path: string)
    requires reqMethod == "PUT" && path == "/orders/7/status"
    ensures RouteMatch(OrderUpdateStatus, reqMethod, Split(path, '/')) == Some([Entry(StrKey("id"), Str("7"))])
  {
    SplitPath3(path, "orders", "7", "status");
    UpdateCapturesAt();
  }

  lemma PutOrderStatusRoute(reqMethod: string, path: string)
    requires reqMethod == "PUT" && path == "/orders/7/status"
    ensures Match(V1Table, reqMethod, path) ==
      Some(Hit(Str("V1\\OrderController@updateStatus"), [Entry(StrKey("id"), Str("7"))]))
  {
    UpdateFirst(reqMethod, path);
    UpdateCaptures(reqMethod, path);
    UpdateLast();
    V1Resolved(reqMethod, path, OrderUpdateStatus, OrderUpdateStatus.handler, [Entry(StrKey("id"), Str("7"))]);
  }
}
