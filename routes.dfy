// The route table of config/routes.php and the textual form of its keys.
//
// Each entry is kept structurally (verb, path segments, handler); the
// "METHOD /path" key string the router sees is derived from it, and
// KeyRoundTrip shows that the router's parse of that string gives the
// segments back.
module Routes {
  import opened Wrappers
  import opened Strings
  import opened Php

  datatype Verb = GET | POST | PUT | DELETE

  /** One '/'-separated piece of a pattern as the router reads it. */
  datatype Seg = Lit(text: string) | Param(name: string)

  /** Literal text of a table path: no separator, brace or space. */
  predicate PlainChar(c: char) { c != '/' && c != '{' && c != ' ' }

  type Word = s: string | forall i :: 0 <= i < |s| ==> PlainChar(s[i])

  /** A piece of a table path after the leading '/': text, {id} or {user_id}. */
  datatype Piece = W(word: Word) | Id | UserId

  /** An entry of the table: verb, the pieces of its path and its handler. */
  datatype Route = Route(verb: Verb, path: seq<Piece>, handler: string)

  function VerbName(v: Verb): (s: string)
    ensures |s| >= 1 && ' ' !in s
  {
    match v
    case GET => "GET"
    case POST => "POST"
    case PUT => "PUT"
    case DELETE => "DELETE"
  }

  /** The verb a request method string names, if any. */
  function ParseVerb(m: string): (v: Option<Verb>)
    ensures forall x :: v == Some(x) <==> VerbName(x) == m
  {
    if m == "GET" then Some(GET)
    else if m == "POST" then Some(POST)
    else if m == "PUT" then Some(PUT)
    else if m == "DELETE" then Some(DELETE)
    else None
  }

  function PieceSeg(p: Piece): Seg
  {
    match p
    case W(w) => Lit(w)
    case Id => Param("id")
    case UserId => Param("user_id")
  }

  function Segs(path: seq<Piece>): (p: seq<Seg>)
    ensures |p| == |path| && forall i :: 0 <= i < |path| ==> p[i] == PieceSeg(path[i])
    decreases |path|
  {
    if path == [] then [] else [PieceSeg(path[0])] + Segs(path[1..])
  }

  /** The segments of a table path: the empty piece before the leading '/', then its pieces. */
  function Pattern(path: seq<Piece>): seq<Seg>
  {
    [Lit("")] + Segs(path)
  }

  function SegText(g: Seg): string
  {
    match g
    case Lit(t) => t
    case Param(n) => "{" + n + "}"
  }

  function SegTexts(p: seq<Seg>): (ts: seq<string>)
    ensures |ts| == |p| && forall i :: 0 <= i < |p| ==> ts[i] == SegText(p[i])
  {
    seq(|p|, i requires 0 <= i < |p| => SegText(p[i]))
  }

  /** "/products/{id}" for [Lit(""), Lit("products"), Param("id")]. */
  function PatternText(p: seq<Seg>): string
  {
    Implode(SegTexts(p), "/")
  }

  /** The array key of a route: "METHOD /path". */
  function KeyText(r: Route): string
  {
    VerbName(r.verb) + " " + PatternText(Pattern(r.path))
  }

  /** The `'key' => 'handler'` element of the array literal. */
  function EntryOf(r: Route): Entry
  {
    Entry(StrKey(KeyText(r)), Str(r.handler))
  }

  function Entries(rs: seq<Route>): (es: seq<Entry>)
    ensures |es| == |rs| && forall i :: 0 <= i < |rs| ==> es[i] == EntryOf(rs[i])
  {
    seq(|rs|, i requires 0 <= i < |rs| => EntryOf(rs[i]))
  }

  lemma EntriesAppend(a: seq<Route>, b: seq<Route>)
    ensures Entries(a + b) == Entries(a) + Entries(b)
  {
  }

  // ---------------------------------------------------------------
  // The router's reading of a key (app/Core/App.php:270, 295)
  // ---------------------------------------------------------------

  /** The placeholder names the router's pattern accepts: [a-z_]+. */
  predicate IsName(n: string)
  {
    |n| >= 1 && forall i :: 0 <= i < |n| ==> ('a' <= n[i] <= 'z' || n[i] == '_')
  }

  /** A piece "{name}" is a placeholder; any other piece is literal text. */
  function ParsePiece(t: string): (g: Seg)
    ensures g.Param? ==> IsName(g.name) && t == "{" + g.name + "}"
    ensures g.Lit? ==> g.text == t
  {
    if |t| >= 3 && t[0] == '{' && t[|t| - 1] == '}' && IsName(t[1..|t| - 1]) then
      assert t == "{" + t[1..|t| - 1] + "}";
      Param(t[1..|t| - 1])
    else Lit(t)
  }

  function ParsePieces(ts: seq<string>): (p: seq<Seg>)
    ensures |p| == |ts| && forall i :: 0 <= i < |ts| ==> p[i] == ParsePiece(ts[i])
  {
    seq(|ts|, i requires 0 <= i < |ts| => ParsePiece(ts[i]))
  }

  /** The segments of a pattern string. */
  function ParsePattern(t: string): seq<Seg>
  {
    ParsePieces(Split(t, '/'))
  }

  /**
   * `list($routeMethod, $routePattern) = explode(" ", $key, 2)`; a key
   * without a space leaves the pattern null, which the matcher reads as "".
   */
  function ParseKey(key: string): (r: (string, string))
    ensures ' ' !in key ==> r == (key, "")
    ensures ' ' in key ==> ' ' !in r.0 && r.0 + " " + r.1 == key
  {
    var parts := SplitOnce(key, ' ');
    if |parts| == 2 then (parts[0], parts[1]) else (key, "")
  }

  // ---------------------------------------------------------------
  // Well-formed patterns and the round trip of the key text
  // ---------------------------------------------------------------

  predicate WellFormedSeg(g: Seg)
  {
    match g
    case Lit(t) => '/' !in t && '{' !in t && ' ' !in t
    case Param(n) => IsName(n)
  }

  /** A pattern that starts at the root and whose every piece is plain. */
  predicate WellFormed(p: seq<Seg>)
  {
    |p| >= 1 && p[0] == Lit("") && forall i :: 0 <= i < |p| ==> WellFormedSeg(p[i])
  }

  /** Every table path gives a well-formed pattern. */
  lemma PatternWellFormed(path: seq<Piece>)
    ensures WellFormed(Pattern(path))
  {
    assert IsName("id");
    assert IsName("user_id");
    var p := Pattern(path);
    assert forall i :: 1 <= i < |p| ==> p[i] == PieceSeg(path[i - 1]);
  }

  /** Distinct table paths give distinct patterns. */
  lemma {:induction false} PatternInjective(a: seq<Piece>, b: seq<Piece>)
    ensures Pattern(a) == Pattern(b) <==> a == b
  {
    if Pattern(a) == Pattern(b) {
      assert Segs(a) == Pattern(a)[1..] == Pattern(b)[1..] == Segs(b);
      forall i | 0 <= i < |a| ensures a[i] == b[i] {
        assert PieceSeg(a[i]) == Segs(a)[i] == Segs(b)[i] == PieceSeg(b[i]);
      }
    }
  }

  lemma ParseSegText(g: Seg)
    requires WellFormedSeg(g)
    ensures ParsePiece(SegText(g)) == g
    ensures '/' !in SegText(g) && ' ' !in SegText(g)
  {
    match g
    case Lit(t) =>
      assert |t| >= 1 ==> t[0] in t;
    case Param(n) =>
      var t := "{" + n + "}";
      assert t[1..|t| - 1] == n;
      assert forall i :: 0 <= i < |n| ==> t[i + 1] == n[i];
  }

  lemma {:induction false} PatternRoundTrip(p: seq<Seg>)
    requires |p| >= 1 && forall i :: 0 <= i < |p| ==> WellFormedSeg(p[i])
    ensures ParsePattern(PatternText(p)) == p
    ensures ' ' !in PatternText(p)
  {
    var ts := SegTexts(p);
    forall i | 0 <= i < |p| ensures ParsePiece(ts[i]) == p[i] && '/' !in ts[i] && ' ' !in ts[i] {
      ParseSegText(p[i]);
    }
    assert NoneContains(ts, '/');
    SplitJoin(ts, '/');
    NoSpaceInJoin(ts);
  }

  lemma {:induction false} NoSpaceInJoin(ts: seq<string>)
    requires forall i :: 0 <= i < |ts| ==> ' ' !in ts[i]
    ensures ' ' !in Implode(ts, "/")
    decreases |ts|
  {
    if |ts| > 1 {
      NoSpaceInJoin(ts[1..]);
    }
  }

  /**
   * What the router reads back from a route's key: its verb name and a
   * pattern whose segments are the route's own.
   */
  lemma KeyRoundTrip(r: Route)
    ensures ParseKey(KeyText(r)) == (VerbName(r.verb), PatternText(Pattern(r.path)))
    ensures ParsePattern(PatternText(Pattern(r.path))) == Pattern(r.path)
  {
    PatternWellFormed(r.path);
    PatternRoundTrip(Pattern(r.path));
    var v := VerbName(r.verb);
    var pt := PatternText(Pattern(r.path));
    assert KeyText(r) == v + [' '] + pt;
    SplitOnceAt(v, pt, ' ');
  }

  // ---------------------------------------------------------------
  // The table (config/routes.php)
  // ---------------------------------------------------------------

  /** A run of consecutive entries of the file. */
  datatype RouteList = Nil | Cons(head: Route, tail: RouteList)

  function ToSeq(l: RouteList): (rs: seq<Route>)
    ensures l.Cons? ==> rs == [l.head] + ToSeq(l.tail)
  {
    match l
    case Nil => []
    case Cons(r, t) => [r] + ToSeq(t)
  }

  /** GET /products/search (config/routes.php line 36). */
  const ProductSearch := Route(GET, [W("products"), W("search")], "V1\\ProductController@search")

  /** GET /products/{id} (config/routes.php line 37). */
  const ProductShow := Route(GET, [W("products"), Id], "V1\\ProductController@show")

  /** GET /products/{id}/reviews (config/routes.php lines 49 and 113). */
  const ReviewIndex := Route(GET, [W("products"), Id, W("reviews")], "V1\\ReviewController@index")

  /** GET /orders/{id}/status (config/routes.php line 93). */
  const OrderStatus := Route(GET, [W("orders"), Id, W("status")], "V1\\OrderController@status")

  /** PUT /orders/{id}/status (config/routes.php line 97). */
  const OrderUpdateStatus := Route(PUT, [W("orders"), Id, W("status")], "V1\\OrderController@updateStatus")

  /** The authentication entries (config/routes.php lines 28-30). */
  const AuthRoutes: RouteList :=
    Cons(Route(POST, [W("register")], "v1\\Authcontroller@register"),
    Cons(Route(POST, [W("login")], "v1\\Authcontroller@login"),
    Cons(Route(POST, [W("logout")], "V1\\AuthController@logout"),
    Nil)))

  /** The public product entries (config/routes.php lines 35-37). */
  const ProductRoutes: RouteList :=
    Cons(Route(GET, [W("products")], "v1\\ProductController@index"),
    Cons(ProductSearch,
    Cons(ProductShow,
    Nil)))

  /** The product administration entries (config/routes.php lines 39-41). */
  const ProductAdminRoutes: RouteList :=
    Cons(Route(POST, [W("products")], "V1\\ProductController@create"),
    Cons(Route(POST, [W("products"), Id], "V1\\ProductController@update"),
    Cons(Route(DELETE, [W("products"), Id], "V1\\ProductController@delete"),
    Nil)))

  /** The product images entries (config/routes.php lines 43-46). */
  const ProductImageRoutes: RouteList :=
    Cons(Route(GET, [W("products"), Id, W("images")], "V1\\ProductController@getProductImages"),
    Cons(Route(POST, [W("products"), Id, W("images")], "V1\\ProductController@uploadAdditionalImages"),
    Cons(Route(DELETE, [W("products"), W("images"), Id], "V1\\ProductController@deleteProductImage"),
    Cons(Route(POST, [W("products"), Id, W("images"), W("replace")], "V1\\ProductController@replaceProductImages"),
    Nil))))

  /** The reviews entries (config/routes.php lines 49-54). */
  const ReviewRoutes: RouteList :=
    Cons(ReviewIndex,
    Cons(Route(GET, [W("products"), Id, W("rating")], "V1\\ReviewController@rating"),
    Cons(Route(GET, [W("reviews"), Id], "V1\\ReviewController@show"),
    Cons(Route(POST, [W("products"), Id, W("reviews")], "V1\\ReviewController@create"),
    Cons(Route(PUT, [W("reviews"), Id], "V1\\ReviewController@update"),
    Cons(Route(DELETE, [W("reviews"), Id], "V1\\ReviewController@delete"),
    Nil))))))

  /** The remaining reviews entries (config/routes.php lines 55-56). */
  const ReviewMoreRoutes: RouteList :=
    Cons(Route(POST, [W("reviews"), Id, W("helpful")], "V1\\ReviewController@markHelpful"),
    Cons(Route(GET, [W("users"), Id, W("reviews")], "V1\\ReviewController@userReviews"),
    Nil))

  /** The categories entries (config/routes.php lines 61-62, 64-66). */
  const CategoryRoutes: RouteList :=
    Cons(Route(GET, [W("categories")], "V1\\CategoryController@index"),
    Cons(Route(GET, [W("categories"), Id, W("products")], "v1\\ProductController@categoryProducts"),
    Cons(Route(POST, [W("categories")], "V1\\CategoryController@create"),
    Cons(Route(POST, [W("categories"), Id], "V1\\CategoryController@update"),
    Cons(Route(DELETE, [W("categories"), Id], "V1\\CategoryController@delete"),
    Nil)))))

  /** The brands entries (config/routes.php lines 71-72, 74-76). */
  const BrandRoutes: RouteList :=
    Cons(Route(GET, [W("brands")], "V1\\BrandController@index"),
    Cons(Route(GET, [W("brands"), Id, W("products")], "V1\\BrandController@products"),
    Cons(Route(POST, [W("brands")], "V1\\BrandController@create"),
    Cons(Route(POST, [W("brands"), Id], "V1\\BrandController@update"),
    Cons(Route(DELETE, [W("brands"), Id], "V1\\BrandController@delete"),
    Nil)))))

  /** The cart entries (config/routes.php lines 80-82, 84-87). */
  const CartRoutes: RouteList :=
    Cons(Route(GET, [W("cart")], "v1\\CartController@show"),
    Cons(Route(GET, [W("cart"), W("count")], "V1\\CartController@count"),
    Cons(Route(GET, [W("cart"), W("total")], "V1\\CartController@total"),
    Cons(Route(POST, [W("cart"), W("add")], "V1\\CartController@add"),
    Cons(Route(PUT, [W("cart"), W("items"), Id], "V1\\CartController@updateItem"),
    Cons(Route(DELETE, [W("cart"), W("items"), Id], "V1\\CartController@removeItem"),
    Cons(Route(DELETE, [W("cart"), W("clear")], "V1\\CartController@clear"),
    Nil)))))))

  /** The orders entries (config/routes.php lines 90-95, 97). */
  const OrderRoutes: RouteList :=
    Cons(Route(GET, [W("orders")], "v1\\OrderController@index"),
    Cons(Route(GET, [W("orders"), Id], "v1\\OrderController@show"),
    Cons(Route(GET, [W("orders"), Id, W("items")], "V1\\OrderController@items"),
    Cons(OrderStatus,
    Cons(Route(POST, [W("checkout")], "V1\\OrderController@checkout"),
    Cons(Route(PUT, [W("orders"), Id, W("cancel")], "V1\\OrderController@cancel"),
    Cons(OrderUpdateStatus,
    Nil)))))))

  /** The user profile entries (config/routes.php lines 102-108). */
  const UserRoutes: RouteList :=
    Cons(Route(GET, [W("user"), Id], "v1\\UserController@show"),
    Cons(Route(GET, [W("users"), Id, W("orders")], "V1\\UserController@orders"),
    Cons(Route(GET, [W("users"), Id, W("addresses")], "V1\\UserController@addresses"),
    Cons(Route(PUT, [W("user"), Id], "v1\\UserController@update"),
    Cons(Route(PUT, [W("users"), Id, W("password")], "V1\\UserController@changePassword"),
    Cons(Route(POST, [W("users"), Id, W("addresses")], "V1\\UserController@addAddress"),
    Cons(Route(DELETE, [W("users"), Id], "V1\\UserController@delete"),
    Nil)))))))

  /** The repeated reviews block entries (config/routes.php lines 113-118). */
  const ReviewRepeatRoutes: RouteList :=
    Cons(ReviewIndex,
    Cons(Route(GET, [W("products"), Id, W("rating")], "V1\\ReviewController@rating"),
    Cons(Route(GET, [W("reviews"), Id], "V1\\ReviewController@show"),
    Cons(Route(POST, [W("products"), Id, W("reviews")], "V1\\ReviewController@create"),
    Cons(Route(PUT, [W("reviews"), Id], "V1\\ReviewController@update"),
    Cons(Route(DELETE, [W("reviews"), Id], "V1\\ReviewController@delete"),
    Nil))))))

  /** The global search entries (config/routes.php lines 122-124). */
  const SearchRoutes: RouteList :=
    Cons(Route(GET, [W("search")], "V1\\SearchController@all"),
    Cons(Route(GET, [W("search"), W("suggestions")], "V1\\SearchController@suggestions"),
    Cons(Route(GET, [W("search"), W("trending")], "V1\\SearchController@trending"),
    Nil)))

  /** The session test entries (config/routes.php lines 129-133). */
  const TestRoutes: RouteList :=
    Cons(Route(GET, [W("test"), W("public")], "V1\\TestController@publicTest"),
    Cons(Route(GET, [W("test"), W("protected")], "V1\\TestController@protectedTest"),
    Cons(Route(GET, [W("test"), W("admin")], "V1\\TestController@adminTest"),
    Cons(Route(GET, [W("test"), W("session")], "V1\\TestController@sessionInfo"),
    Cons(Route(GET, [W("test"), W("ownership"), UserId], "V1\\TestController@ownershipTest"),
    Nil)))))

  /** The v1 entries of config/routes.php lines 28-66, in source order. */
  const V1Front: seq<Route> :=
    ToSeq(AuthRoutes) + ToSeq(ProductRoutes) + ToSeq(ProductAdminRoutes) + ToSeq(ProductImageRoutes) +
    ToSeq(ReviewRoutes) + ToSeq(ReviewMoreRoutes) + ToSeq(CategoryRoutes)

  /** The v1 entries of config/routes.php lines 71-133, in source order. */
  const V1Back: seq<Route> :=
    ToSeq(BrandRoutes) + ToSeq(CartRoutes) + ToSeq(OrderRoutes) + ToSeq(UserRoutes) +
    ToSeq(ReviewRepeatRoutes) + ToSeq(SearchRoutes) + ToSeq(TestRoutes)

  /** The v1 array literal's elements in source order, repeated keys included. */
  const V1Literal: seq<Route> := V1Front + V1Back

  /** The v1 table as the router holds it, repeated keys collapsed. */
  const V1Table: Dict := Literal(Entries(V1Literal))

  /** The v1 entries that precede the repeated reviews block (lines 28-108). */
  const V1BeforeRepeat: seq<Route> :=
    V1Front + ToSeq(BrandRoutes) + ToSeq(CartRoutes) + ToSeq(OrderRoutes) + ToSeq(UserRoutes)

  /** The v1 entries that follow the repeated reviews block (lines 122-133). */
  const V1AfterRepeat: seq<Route> := ToSeq(SearchRoutes) + ToSeq(TestRoutes)

  /** The v1 entries with lines 113-118 left out. */
  const V1Unrepeated: seq<Route> := V1BeforeRepeat + V1AfterRepeat

  /** The array config/routes.php returns, given its v1 table; v2 and v3 are empty. */
  function RoutesOf(v1: Dict): Dict
  {
    Literal([
      Entry(StrKey("v1"), Arr(v1)),
      Entry(StrKey("v2"), Arr([])),
      Entry(StrKey("v3"), Arr([]))
    ])
  }

  /** The value `require 'config/routes.php'` gives the router. */
  const RoutesConfig: Dict := RoutesOf(V1Table)
}
