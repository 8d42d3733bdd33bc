// What the router does with the table of config/routes.php.
//
// The table is read structurally (verb, segments, handler) through the
// key round trip of Routes, which turns the router's text-level scan
// into a scan over the groups of the file; the concrete dispatch facts
// follow from that.
module RoutingFacts {
  import opened Wrappers
  import opened Strings
  import opened Php
  import opened Routes
  import opened Router

  // ---------------------------------------------------------------
  // The structural reading of a scan
  // ---------------------------------------------------------------

  /** The capture name of a placeholder piece. */
  function PieceName(p: Piece): string
  {
    match p
    case W(_) => ""
    case Id => "id"
    case UserId => "user_id"
  }

  predicate PieceMatches(p: Piece, x: string)
  {
    if p.W? then p.word == x else x != ""
  }

  /** The pieces of a request path after the leading '/' against a table path. */
  function MatchPieces(path: seq<Piece>, q: seq<string>): (r: Option<Dict>)
    ensures r.Some? ==> |q| == |path|
    decreases |path|
  {
    if path == [] then (if q == [] then Some([]) else None)
    else if q == [] || !PieceMatches(path[0], q[0]) then None
    else match MatchPieces(path[1..], q[1..])
      case None => None
      case Some(caps) => Some(if path[0].W? then caps else [Entry(StrKey(PieceName(path[0])), Str(q[0]))] + caps)
  }

  /** Whether the pieces match, without collecting the captures. */
  predicate PiecesMatch(path: seq<Piece>, q: seq<string>)
    decreases |path|
  {
    if path == [] then q == []
    else q != [] && PieceMatches(path[0], q[0]) && PiecesMatch(path[1..], q[1..])
  }

  lemma {:induction false} PiecesMatchSome(path: seq<Piece>, q: seq<string>)
    ensures PiecesMatch(path, q) <==> MatchPieces(path, q).Some?
    decreases |path|
  {
    if path != [] && q != [] {
      PiecesMatchSome(path[1..], q[1..]);
    }
  }

  /** The piece-wise match is the router's segment match on the table path's segments. */
  lemma {:induction false} MatchPiecesIsMatchSegs(path: seq<Piece>, q: seq<string>)
    ensures MatchPieces(path, q) == MatchSegs(Segs(path), q)
    decreases |path|
  {
    if path != [] && q != [] {
      assert Segs(path)[1..] == Segs(path[1..]);
      MatchPiecesIsMatchSegs(path[1..], q[1..]);
      match MatchPieces(path[1..], q[1..])
      case None =>
      case Some(caps) =>
        assert [] + caps == caps;
    }
  }

  /** One route against the request method and path pieces. */
  function RouteMatch(r: Route, reqMethod: string, q: seq<string>): Option<Dict>
  {
    if ParseVerb(reqMethod) == Some(r.verb) && |q| == |r.path| + 1 && q[0] == "" then
      MatchPieces(r.path, q[1..])
    else None
  }

  /** Whether a route matches, without collecting the captures. */
  predicate RouteHits(r: Route, reqMethod: string, q: seq<string>)
  {
    ParseVerb(reqMethod) == Some(r.verb) && |q| == |r.path| + 1 && q[0] == "" && PiecesMatch(r.path, q[1..])
  }

  lemma RouteHitsMatch(r: Route, reqMethod: string, q: seq<string>)
    ensures RouteHits(r, reqMethod, q) <==> RouteMatch(r, reqMethod, q).Some?
  {
    if |q| == |r.path| + 1 && q[0] == "" {
      PiecesMatchSome(r.path, q[1..]);
    }
  }

  lemma RouteMatchIsMatchSegs(r: Route, reqMethod: string, q: seq<string>)
    ensures RouteMatch(r, reqMethod, q) ==
      if VerbName(r.verb) == reqMethod then MatchSegs(Pattern(r.path), q) else None
  {
    var p := Pattern(r.path);
    assert p[0] == Lit("") && p[1..] == Segs(r.path);
    if q != [] && q[0] == "" {
      MatchPiecesIsMatchSegs(r.path, q[1..]);
      assert |p| == |r.path| + 1;
      match MatchSegs(p[1..], q[1..])
      case None =>
      case Some(caps) =>
        assert [] + caps == caps;
    }
  }

  /** The first route, in order, that matches. */
  function FirstRoute(rs: seq<Route>, reqMethod: string, q: seq<string>): (r: Option<Route>)
    ensures r.Some? ==> r.value in rs && RouteHits(r.value, reqMethod, q)
    decreases |rs|
  {
    if rs == [] then None
    else if RouteHits(rs[0], reqMethod, q) then Some(rs[0])
    else FirstRoute(rs[1..], reqMethod, q)
  }

  /** The handler of the last route with this verb and path. */
  function LastHandler(rs: seq<Route>, verb: Verb, path: seq<Piece>): Option<string>
    decreases |rs|
  {
    if rs == [] then None
    else
      var later := LastHandler(rs[1..], verb, path);
      if later.Some? then later
      else if rs[0].verb == verb && rs[0].path == path then Some(rs[0].handler)
      else None
  }

  /** A handler is kept exactly when some route has that verb and path, and it is the last such route's. */
  lemma {:induction false} LastHandlerFound(rs: seq<Route>, verb: Verb, path: seq<Piece>)
    ensures LastHandler(rs, verb, path).Some? <==> exists i :: 0 <= i < |rs| && rs[i].verb == verb && rs[i].path == path
    ensures LastHandler(rs, verb, path).Some? ==>
      (exists i :: 0 <= i < |rs| && rs[i].verb == verb && rs[i].path == path &&
         rs[i].handler == LastHandler(rs, verb, path).value &&
         (forall j :: i < j < |rs| ==> !(rs[j].verb == verb && rs[j].path == path)))
    decreases |rs|
  {
    if rs != [] {
      LastHandlerFound(rs[1..], verb, path);
      assert forall j :: 1 <= j < |rs| ==> rs[j] == rs[1..][j - 1];
    }
  }

  /** FirstRoute over a run of the file. */
  function FirstIn(l: RouteList, reqMethod: string, q: seq<string>): Option<Route>
  {
    match l
    case Nil => None
    case Cons(r, t) => if RouteHits(r, reqMethod, q) then Some(r) else FirstIn(t, reqMethod, q)
  }

  /** LastHandler over a run of the file. */
  function LastIn(l: RouteList, verb: Verb, path: seq<Piece>): Option<string>
  {
    match l
    case Nil => None
    case Cons(r, t) =>
      var later := LastIn(t, verb, path);
      if later.Some? then later
      else if r.verb == verb && r.path == path then Some(r.handler)
      else None
  }

  lemma {:induction false} FirstInIsFirstRoute(l: RouteList, reqMethod: string, q: seq<string>)
    ensures FirstIn(l, reqMethod, q) == FirstRoute(ToSeq(l), reqMethod, q)
  {
    if l.Cons? {
      assert ToSeq(l)[0] == l.head && ToSeq(l)[1..] == ToSeq(l.tail);
      FirstInIsFirstRoute(l.tail, reqMethod, q);
    }
  }

  lemma {:induction false} LastInIsLastHandler(l: RouteList, verb: Verb, path: seq<Piece>)
    ensures LastIn(l, verb, path) == LastHandler(ToSeq(l), verb, path)
  {
    if l.Cons? {
      assert ToSeq(l)[0] == l.head && ToSeq(l)[1..] == ToSeq(l.tail);
      LastInIsLastHandler(l.tail, verb, path);
    }
  }

  lemma {:induction false} FirstRouteAppend(a: seq<Route>, b: seq<Route>, reqMethod: string, q: seq<string>)
    ensures FirstRoute(a + b, reqMethod, q) ==
      if FirstRoute(a, reqMethod, q).Some? then FirstRoute(a, reqMethod, q) else FirstRoute(b, reqMethod, q)
    decreases |a|
  {
    if a == [] {
      assert a + b == b;
    } else {
      assert (a + b)[0] == a[0] && (a + b)[1..] == a[1..] + b;
      FirstRouteAppend(a[1..], b, reqMethod, q);
    }
  }

  lemma {:induction false} LastHandlerAppend(a: seq<Route>, b: seq<Route>, verb: Verb, path: seq<Piece>)
    ensures LastHandler(a + b, verb, path) ==
      if LastHandler(b, verb, path).Some? then LastHandler(b, verb, path) else LastHandler(a, verb, path)
    decreases |a|
  {
    if a == [] {
      assert a + b == b;
    } else {
      assert (a + b)[0] == a[0] && (a + b)[1..] == a[1..] + b;
      LastHandlerAppend(a[1..], b, verb, path);
    }
  }

  // ---------------------------------------------------------------
  // From key text to structure
  // ---------------------------------------------------------------

  lemma VerbNameInjective(a: Verb, b: Verb)
    ensures VerbName(a) == VerbName(b) <==> a == b
  {
    if a != b {
      assert VerbName(a)[0] != VerbName(b)[0] || VerbName(a)[1] != VerbName(b)[1];
    }
  }

  /** Routes with distinct verbs or paths have distinct keys. */
  lemma KeyTextInjective(a: Route, b: Route)
    ensures KeyText(a) == KeyText(b) <==> a.verb == b.verb && a.path == b.path
  {
    KeyRoundTrip(a);
    KeyRoundTrip(b);
    VerbNameInjective(a.verb, b.verb);
    PatternInjective(a.path, b.path);
  }

  /** The router's reading of a route's key is the structural match. */
  lemma KeyHitOfRoute(r: Route, reqMethod: string, path: string)
    ensures KeyHit(StrKey(KeyText(r)), reqMethod, path) == RouteMatch(r, reqMethod, Split(path, '/'))
  {
    KeyRoundTrip(r);
    RouteMatchIsMatchSegs(r, reqMethod, Split(path, '/'));
  }

  lemma {:induction false} FirstHitKeyOfRoutes(rs: seq<Route>, reqMethod: string, path: string)
    ensures FirstHitKey(Entries(rs), reqMethod, path) ==
      match FirstRoute(rs, reqMethod, Split(path, '/'))
      case None => None
      case Some(r) => Some(StrKey(KeyText(r)))
    decreases |rs|
  {
    if rs != [] {
      KeyHitOfRoute(rs[0], reqMethod, path);
      RouteHitsMatch(rs[0], reqMethod, Split(path, '/'));
      assert Entries(rs)[1..] == Entries(rs[1..]);
      FirstHitKeyOfRoutes(rs[1..], reqMethod, path);
    }
  }

  lemma {:induction false} LastValueOfRoutes(rs: seq<Route>, r: Route)
    ensures LastValue(Entries(rs), StrKey(KeyText(r))) ==
      match LastHandler(rs, r.verb, r.path)
      case None => None
      case Some(h) => Some(Str(h))
    decreases |rs|
  {
    if rs != [] {
      KeyTextInjective(rs[0], r);
      assert Entries(rs)[1..] == Entries(rs[1..]);
      LastValueOfRoutes(rs[1..], r);
    }
  }

  /**
   * Writing again, further down the literal, entries whose keys already
   * hold those handlers leaves the array as it would be without them.
   */
  lemma RepeatHeld(pre: seq<Route>, rep: seq<Route>, post: seq<Route>)
    requires forall i :: 0 <= i < |rep| ==> LastHandler(pre, rep[i].verb, rep[i].path) == Some(rep[i].handler)
    ensures Literal(Entries(pre + rep + post)) == Literal(Entries(pre + post))
  {
    var d := Literal(Entries(pre));
    var es := Entries(rep);
    forall i | 0 <= i < |es| ensures Lookup(d, es[i].key) == Some(es[i].val) {
      LastValueOfRoutes(pre, rep[i]);
      AssignLookup([], Entries(pre), es[i].key);
    }
    AssignHeld(d, es);
    EntriesAppend(pre, rep);
    EntriesAppend(pre + rep, post);
    EntriesAppend(pre, post);
    AssignAppend([], Entries(pre), es);
    AssignAppend([], Entries(pre) + es, Entries(post));
    AssignAppend([], Entries(pre), Entries(post));
  }

  /**
   * The scan of a table written as an array literal of routes: the first
   * matching route in file order wins, and its handler is the last one
   * the file gives that verb and path.
   */
  lemma ResolveRoutes(rs: seq<Route>, reqMethod: string, path: string)
    ensures Match(Literal(Entries(rs)), reqMethod, path) ==
      match FirstRoute(rs, reqMethod, Split(path, '/'))
      case None => None
      case Some(r) => Some(Hit(Str(LastHandler(rs, r.verb, r.path).GetOr("")),
                               RouteMatch(r, reqMethod, Split(path, '/')).GetOr([])))
  {
    var q := Split(path, '/');
    MatchLiteral(Entries(rs), reqMethod, path);
    FirstHitKeyOfRoutes(rs, reqMethod, path);
    var r := FirstRoute(rs, reqMethod, q);
    if r.Some? {
      var x := r.value;
      LastValueOfRoutes(rs, x);
      KeyHitOfRoute(x, reqMethod, path);
    }
  }

  // ---------------------------------------------------------------
  // The v1 table group by group
  // ---------------------------------------------------------------

  /** The first matching route of lines 28-66, group by group. */
  function V1FrontFirst(reqMethod: string, q: seq<string>): Option<Route>
  {
    FirstIn(AuthRoutes, reqMethod, q)
      .Else(FirstIn(ProductRoutes, reqMethod, q))
      .Else(FirstIn(ProductAdminRoutes, reqMethod, q))
      .Else(FirstIn(ProductImageRoutes, reqMethod, q))
      .Else(FirstIn(ReviewRoutes, reqMethod, q))
      .Else(FirstIn(ReviewMoreRoutes, reqMethod, q))
      .Else(FirstIn(CategoryRoutes, reqMethod, q))
  }

  /** The first matching route of lines 71-133, group by group. */
  function V1BackFirst(reqMethod: string, q: seq<string>): Option<Route>
  {
    FirstIn(BrandRoutes, reqMethod, q)
      .Else(FirstIn(CartRoutes, reqMethod, q))
      .Else(FirstIn(OrderRoutes, reqMethod, q))
      .Else(FirstIn(UserRoutes, reqMethod, q))
      .Else(FirstIn(ReviewRepeatRoutes, reqMethod, q))
      .Else(FirstIn(SearchRoutes, reqMethod, q))
      .Else(FirstIn(TestRoutes, reqMethod, q))
  }

  /** The first matching v1 route in file order. */
  function V1First(reqMethod: string, q: seq<string>): Option<Route>
  {
    V1FrontFirst(reqMethod, q).Else(V1BackFirst(reqMethod, q))
  }

  /** The handler lines 28-66 leave for a verb and path: a later group wins. */
  function V1FrontLast(verb: Verb, path: seq<Piece>): Option<string>
  {
    LastIn(CategoryRoutes, verb, path)
      .Else(LastIn(ReviewMoreRoutes, verb, path))
      .Else(LastIn(ReviewRoutes, verb, path))
      .Else(LastIn(ProductImageRoutes, verb, path))
      .Else(LastIn(ProductAdminRoutes, verb, path))
      .Else(LastIn(ProductRoutes, verb, path))
      .Else(LastIn(AuthRoutes, verb, path))
  }

  /** The handler lines 71-133 leave for a verb and path. */
  function V1BackLast(verb: Verb, path: seq<Piece>): Option<string>
  {
    LastIn(TestRoutes, verb, path)
      .Else(LastIn(SearchRoutes, verb, path))
      .Else(LastIn(ReviewRepeatRoutes, verb, path))
      .Else(LastIn(UserRoutes, verb, path))
      .Else(LastIn(OrderRoutes, verb, path))
      .Else(LastIn(CartRoutes, verb, path))
      .Else(LastIn(BrandRoutes, verb, path))
  }

  /** The handler the v1 table keeps for a verb and path: a later entry wins. */
  function V1Last(verb: Verb, path: seq<Piece>): Option<string>
  {
    V1BackLast(verb, path).Else(V1FrontLast(verb, path))
  }

  lemma V1FrontFirstRoute(reqMethod: string, q: seq<string>)
    ensures FirstRoute(V1Front, reqMethod, q) == V1FrontFirst(reqMethod, q)
  {
    var rs := ToSeq(AuthRoutes);
    FirstInIsFirstRoute(AuthRoutes, reqMethod, q);
    FirstRouteAppend(rs, ToSeq(ProductRoutes), reqMethod, q);
    FirstInIsFirstRoute(ProductRoutes, reqMethod, q);
    rs := rs + ToSeq(ProductRoutes);
    FirstRouteAppend(rs, ToSeq(ProductAdminRoutes), reqMethod, q);
    FirstInIsFirstRoute(ProductAdminRoutes, reqMethod, q);
    rs := rs + ToSeq(ProductAdminRoutes);
    FirstRouteAppend(rs, ToSeq(ProductImageRoutes), reqMethod, q);
    FirstInIsFirstRoute(ProductImageRoutes, reqMethod, q);
    rs := rs + ToSeq(ProductImageRoutes);
    FirstRouteAppend(rs, ToSeq(ReviewRoutes), reqMethod, q);
    FirstInIsFirstRoute(ReviewRoutes, reqMethod, q);
    rs := rs + ToSeq(ReviewRoutes);
    FirstRouteAppend(rs, ToSeq(ReviewMoreRoutes), reqMethod, q);
    FirstInIsFirstRoute(ReviewMoreRoutes, reqMethod, q);
    rs := rs + ToSeq(ReviewMoreRoutes);
    FirstRouteAppend(rs, ToSeq(CategoryRoutes), reqMethod, q);
    FirstInIsFirstRoute(CategoryRoutes, reqMethod, q);
  }

  lemma V1BackFirstRoute(reqMethod: string, q: seq<string>)
    ensures FirstRoute(V1Back, reqMethod, q) == V1BackFirst(reqMethod, q)
  {
    var rs := ToSeq(BrandRoutes);
    FirstInIsFirstRoute(BrandRoutes, reqMethod, q);
    FirstRouteAppend(rs, ToSeq(CartRoutes), reqMethod, q);
    FirstInIsFirstRoute(CartRoutes, reqMethod, q);
    rs := rs + ToSeq(CartRoutes);
    FirstRouteAppend(rs, ToSeq(OrderRoutes), reqMethod, q);
    FirstInIsFirstRoute(OrderRoutes, reqMethod, q);
    rs := rs + ToSeq(OrderRoutes);
    FirstRouteAppend(rs, ToSeq(UserRoutes), reqMethod, q);
    FirstInIsFirstRoute(UserRoutes, reqMethod, q);
    rs := rs + ToSeq(UserRoutes);
    FirstRouteAppend(rs, ToSeq(ReviewRepeatRoutes), reqMethod, q);
    FirstInIsFirstRoute(ReviewRepeatRoutes, reqMethod, q);
    rs := rs + ToSeq(ReviewRepeatRoutes);
    FirstRouteAppend(rs, ToSeq(SearchRoutes), reqMethod, q);
    FirstInIsFirstRoute(SearchRoutes, reqMethod, q);
    rs := rs + ToSeq(SearchRoutes);
    FirstRouteAppend(rs, ToSeq(TestRoutes), reqMethod, q);
    FirstInIsFirstRoute(TestRoutes, reqMethod, q);
  }

  lemma V1FirstRoute(reqMethod: string, q: seq<string>)
    ensures FirstRoute(V1Literal, reqMethod, q) == V1First(reqMethod, q)
  {
    FirstRouteAppend(V1Front, V1Back, reqMethod, q);
    V1FrontFirstRoute(reqMethod, q);
    V1BackFirstRoute(reqMethod, q);
  }

  lemma V1FrontLastHandler(verb: Verb, path: seq<Piece>)
    ensures LastHandler(V1Front, verb, path) == V1FrontLast(verb, path)
  {
    var rs := ToSeq(AuthRoutes);
    LastInIsLastHandler(AuthRoutes, verb, path);
    LastHandlerAppend(rs, ToSeq(ProductRoutes), verb, path);
    LastInIsLastHandler(ProductRoutes, verb, path);
    rs := rs + ToSeq(ProductRoutes);
    LastHandlerAppend(rs, ToSeq(ProductAdminRoutes), verb, path);
    LastInIsLastHandler(ProductAdminRoutes, verb, path);
    rs := rs + ToSeq(ProductAdminRoutes);
    LastHandlerAppend(rs, ToSeq(ProductImageRoutes), verb, path);
    LastInIsLastHandler(ProductImageRoutes, verb, path);
    rs := rs + ToSeq(ProductImageRoutes);
    LastHandlerAppend(rs, ToSeq(ReviewRoutes), verb, path);
    LastInIsLastHandler(ReviewRoutes, verb, path);
    rs := rs + ToSeq(ReviewRoutes);
    LastHandlerAppend(rs, ToSeq(ReviewMoreRoutes), verb, path);
    LastInIsLastHandler(ReviewMoreRoutes, verb, path);
    rs := rs + ToSeq(ReviewMoreRoutes);
    LastHandlerAppend(rs, ToSeq(CategoryRoutes), verb, path);
    LastInIsLastHandler(CategoryRoutes, verb, path);
  }

  lemma V1BackLastHandler(verb: Verb, path: seq<Piece>)
    ensures LastHandler(V1Back, verb, path) == V1BackLast(verb, path)
  {
    var rs := ToSeq(BrandRoutes);
    LastInIsLastHandler(BrandRoutes, verb, path);
    LastHandlerAppend(rs, ToSeq(CartRoutes), verb, path);
    LastInIsLastHandler(CartRoutes, verb, path);
    rs := rs + ToSeq(CartRoutes);
    LastHandlerAppend(rs, ToSeq(OrderRoutes), verb, path);
    LastInIsLastHandler(OrderRoutes, verb, path);
    rs := rs + ToSeq(OrderRoutes);
    LastHandlerAppend(rs, ToSeq(UserRoutes), verb, path);
    LastInIsLastHandler(UserRoutes, verb, path);
    rs := rs + ToSeq(UserRoutes);
    LastHandlerAppend(rs, ToSeq(ReviewRepeatRoutes), verb, path);
    LastInIsLastHandler(ReviewRepeatRoutes, verb, path);
    rs := rs + ToSeq(ReviewRepeatRoutes);
    LastHandlerAppend(rs, ToSeq(SearchRoutes), verb, path);
    LastInIsLastHandler(SearchRoutes, verb, path);
    rs := rs + ToSeq(SearchRoutes);
    LastHandlerAppend(rs, ToSeq(TestRoutes), verb, path);
    LastInIsLastHandler(TestRoutes, verb, path);
  }

  lemma V1LastHandler(verb: Verb, path: seq<Piece>)
    ensures LastHandler(V1Literal, verb, path) == V1Last(verb, path)
  {
    LastHandlerAppend(V1Front, V1Back, verb, path);
    V1FrontLastHandler(verb, path);
    V1BackLastHandler(verb, path);
  }

  /** What the router does with a v1 request, read off the groups of the file. */
  lemma V1Resolved(reqMethod: string, path: string, r: Route, h: string, caps: Dict)
    requires V1FrontFirst(reqMethod, Split(path, '/')).Else(V1BackFirst(reqMethod, Split(path, '/'))) == Some(r)
    requires V1BackLast(r.verb, r.path).Else(V1FrontLast(r.verb, r.path)) == Some(h)
    requires RouteMatch(r, reqMethod, Split(path, '/')) == Some(caps)
    ensures Match(V1Table, reqMethod, path) == Some(Hit(Str(h), caps))
  {
    ResolveRoutes(V1Literal, reqMethod, path);
    V1FirstRoute(reqMethod, Split(path, '/'));
    V1LastHandler(r.verb, r.path);
  }
}
