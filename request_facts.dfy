// Whole requests through the App against the shipped route table:
// a v2 or v3 request is a 404, and concrete urls reach their
// controller method with the captured id as the one argument.
module RequestFacts {
  import opened Wrappers
  import opened Strings
  import opened Php
  import opened Routes
  import opened Router
  import opened RouteQueries
  import opened Application

  /** Every request the App resolves to v2 or v3, other than OPTIONS, is answered with the 404 body. */
  lemma LaterVersionRequestNotFound(reqMethod: string, query: Dict, input: string,
                                    decode: string -> Option<Value>, formDecode: string -> Dict, loadable: Loadable)
    requires reqMethod != "OPTIONS"
    requires ExtractVersion(CleanUrl(RawUrl(query))) in {"v2", "v3"}
    ensures var url := CleanUrl(RawUrl(query));
      Respond(RoutesConfig, reqMethod, query, input, decode, formDecode, loadable) ==
      NotFound(NotFoundBody(reqMethod, url, ExtractVersion(url)))
  {
    var url := CleanUrl(RawUrl(query));
    LaterVersionsEmpty(ExtractVersion(url), reqMethod, ExtractRoute(url));
  }

  /** A freshly built App holds no parameters, so the args are the winner's captures. */
  lemma FreshParams(caps: Dict)
    requires UniqueKeys(caps)
    ensures Assign([], caps) == caps
  {
    AssignOnto([], caps);
    assert [] + caps == caps;
  }

  lemma {:induction false} AssignOnto(acc: Dict, es: seq<Entry>)
    requires UniqueKeys(acc + es)
    ensures Assign(acc, es) == acc + es
    decreases |es|
  {
    if es == [] {
      assert acc + es == acc;
    } else {
      assert forall i :: 0 <= i < |acc| ==> acc[i].key != es[0].key by {
        forall i | 0 <= i < |acc| ensures acc[i].key != es[0].key {
          assert (acc + es)[i] == acc[i] && (acc + es)[|acc|] == es[0];
        }
      }
      PutNew(acc, es[0]);
      assert acc + [es[0]] + es[1..] == acc + es by {
        assert es == [es[0]] + es[1..];
      }
      AssignOnto(acc + [es[0]], es[1..]);
    }
  }

  /** The query array of a request for /api/v1/products/42. */
  const ShowQuery: Dict := [Entry(StrKey("url"), Str("api/v1/products/42"))]

  lemma ShowUrlClean(query: Dict)
    requires query == ShowQuery
    ensures CleanUrl(RawUrl(query)) == "api/v1/products/42"
  {
    var u := RawUrl(query);
    assert u == "api/v1/products/42" by {
      LookupFirst(query, 0);
    }
    PlainPathClean(u);
    CleanUrlOfClean(u);
  }

  /** A path of lower-case letters, digits and inner slashes is already clean. */
  lemma PlainPathClean(u: string)
    requires u != [] && u[0] != '/' && u[|u| - 1] != '/'
    requires forall i :: 0 <= i < |u| ==> 'a' <= u[i] <= 'z' || IsDigit(u[i]) || u[i] == '/'
    ensures IsCleanUrl(u)
  {
    assert '/' in UrlPunctuation;
    forall i | 0 <= i < |u|
      ensures UrlChar(u[i]) && !IsUpper(u[i]) && u[i] != '?'
    {
    }
  }

  lemma ShowUrlIs(query: Dict, url: string)
    requires query == ShowQuery && url == CleanUrl(RawUrl(query))
    ensures url == "api/v1/products/42"
  {
    ShowUrlClean(query);
  }

  lemma ShowUrlPieces(url: string, t: string, rest: string)
    requires t == "v1" && rest == "products/42" && url == "api/" + t + "/" + rest
    ensures ExtractVersion(url) == "v1" && ExtractRoute(url) == "/products/42"
  {
    ApiPrefixedUrl(t, rest);
  }

  lemma ShowUrlParts(url: string, t: string, rest: string)
    requires url == "api/v1/products/42" && t == "v1" && rest == "products/42"
    ensures ExtractVersion(url) == "v1" && ExtractRoute(url) == "/products/42"
  {
    ShowUrlPieces(url, t, rest);
  }

  /** A handler "Class@method" names that class and that method. */
  lemma HandlerPartsAt(cls: string, action: string)
    requires '@' !in cls && '@' !in action
    ensures HandlerParts(cls + "@" + action) == (cls, action)
  {
    SplitAtSeparator(cls, action, '@');
    SplitNoSeparator(action, '@');
    assert cls + "@" + action == cls + ['@'] + action;
  }

  /** The handler of GET /products/{id}. */
  const ShowHandler: string := "V1\\ProductController@show"

  /** The one capture of /products/42. */
  const ShowCaps: Dict := [Entry(StrKey("id"), Str("42"))]

  lemma ShowMatch(routes: Dict, reqMethod: string, version: string, route: string)
    requires routes == RoutesConfig && reqMethod == "GET" && version == "v1" && route == "/products/42"
    ensures MatchRoute(routes, version, reqMethod, route) == Some(Hit(Str(ShowHandler), ShowCaps))
  {
    V1Version(reqMethod, route);
    ProductShowRoute(reqMethod, route);
  }

  lemma ShowHandlerParts(handler: string, cls: string, action: string)
    requires cls == "V1\\ProductController" && action == "show" && handler == ShowHandler
    ensures HandlerParts(handler) == (cls, action)
  {
    assert handler == cls + "@" + action;
    HandlerPartsAt(cls, action);
  }

  lemma ShowControllerClass(handler: string, cls: string, action: string, cc: string)
    requires HandlerParts(handler) == (cls, action)
    requires cls == "V1\\ProductController" && cc == "Controllers\\V1\\ProductController"
    ensures ControllerClass(handler) == cc
  {
  }

  /** The show handler names V1\ProductController's show method. */
  lemma ShowHandlerNames(h: string, cc: string)
    requires h == ShowHandler && cc == "Controllers\\V1\\ProductController"
    ensures ControllerClass(h) == cc && HandlerParts(h).1 == "show" && h != "" && h != "0"
  {
    ShowHandlerParts(h, "V1\\ProductController", "show");
    ShowControllerClass(h, "V1\\ProductController", "show", cc);
  }

  lemma ShowDispatch(handler: string, params: Dict, query: Dict, body: Value, reqMethod: string,
                     url: string, version: string, loadable: Loadable, cc: string)
    requires ControllerClass(handler) == cc && HandlerParts(handler).1 == "show" && params == ShowCaps
    requires cc in loadable.classes && (cc, "show") in loadable.methods
    ensures DispatchOutcome(handler, params, query, body, reqMethod, url, version, loadable) ==
      Invoke(cc, "show", RequestData(params, query, body, reqMethod, version), [Str("42")])
  {
    DispatchInvokes(handler, params, query, body, reqMethod, url, version, loadable, cc, "show");
    assert Values(params) == [Str("42")];
  }

  /** A handler whose class and method are loadable is invoked, with the captures' values. */
  lemma DispatchInvokes(handler: string, params: Dict, query: Dict, body: Value, reqMethod: string,
                        url: string, version: string, loadable: Loadable, cc: string, action: string)
    requires ControllerClass(handler) == cc && HandlerParts(handler).1 == action
    requires cc in loadable.classes && (cc, action) in loadable.methods
    ensures DispatchOutcome(handler, params, query, body, reqMethod, url, version, loadable) ==
      Invoke(cc, action, RequestData(params, query, body, reqMethod, version), Values(params))
  {
  }

  /**
   * A request other than OPTIONS whose winner is a truthy string handler
   * is dispatched with that handler and the captures written over the
   * App's parameters.
   */
  lemma RunDispatchesWinner(routes: Dict, reqMethod: string, url: string, version: string, route: string,
                            body: Value, query: Dict, loadable: Loadable, h: string, caps: Dict, params: Dict)
    requires reqMethod != "OPTIONS"
    requires MatchRoute(routes, version, reqMethod, route) == Some(Hit(Str(h), caps))
    requires h != "" && h != "0"
    ensures RunOutcome(routes, reqMethod, url, version, route, params, body, query, loadable) ==
      DispatchOutcome(h, Assign(params, caps), query, body, reqMethod, url, version, loadable)
  {
    assert Truthy(Str(h)) && ToStr(Str(h)) == h;
  }

  lemma ShowDispatchFresh(h: string, caps: Dict, params: Dict, query: Dict, body: Value, reqMethod: string,
                          url: string, version: string, loadable: Loadable, cc: string)
    requires ControllerClass(h) == cc && HandlerParts(h).1 == "show" && caps == ShowCaps && params == []
    requires cc in loadable.classes && (cc, "show") in loadable.methods
    ensures DispatchOutcome(h, Assign(params, caps), query, body, reqMethod, url, version, loadable) ==
      Invoke(cc, "show", RequestData(caps, query, body, reqMethod, version), [Str("42")])
  {
    FreshParams(caps);
    ShowDispatch(h, caps, query, body, reqMethod, url, version, loadable, cc);
  }

  lemma ShowRunAfterMatch(routes: Dict, reqMethod: string, url: string, version: string, route: string,
                          body: Value, query: Dict, loadable: Loadable, cc: string, h: string, caps: Dict, params: Dict)
    requires MatchRoute(routes, version, reqMethod, route) == Some(Hit(Str(h), caps)) && reqMethod == "GET"
    requires ControllerClass(h) == cc && HandlerParts(h).1 == "show" && h != "" && h != "0"
    requires caps == ShowCaps && params == []
    requires cc in loadable.classes && (cc, "show") in loadable.methods
    ensures RunOutcome(routes, reqMethod, url, version, route, params, body, query, loadable) ==
      Invoke(cc, "show", RequestData(caps, query, body, reqMethod, version), [Str("42")])
  {
    RunDispatchesWinner(routes, reqMethod, url, version, route, body, query, loadable, h, caps, params);
    ShowDispatchFresh(h, caps, params, query, body, reqMethod, url, version, loadable, cc);
  }

  /** run() on the fields a request for /products/42 under v1 leaves. */
  lemma ShowRun(routes: Dict, reqMethod: string, url: string, version: string, route: string,
                body: Value, query: Dict, loadable: Loadable, cc: string, h: string, caps: Dict, params: Dict)
    requires routes == RoutesConfig && reqMethod == "GET" && version == "v1" && route == "/products/42"
    requires cc == "Controllers\\V1\\ProductController"
    requires h == ShowHandler && caps == ShowCaps && params == []
    requires cc in loadable.classes && (cc, "show") in loadable.methods
    ensures RunOutcome(routes, reqMethod, url, version, route, params, body, query, loadable) ==
      Invoke(cc, "show", RequestData(caps, query, body, reqMethod, version), [Str("42")])
  {
    ShowMatch(routes, reqMethod, version, route);
    ShowHandlerNames(h, cc);
    ShowRunAfterMatch(routes, reqMethod, url, version, route, body, query, loadable, cc, h, caps, params);
  }

  /** Respond is run() on the fields the constructor fills in. */
  lemma RespondRuns(routes: Dict, reqMethod: string, query: Dict, input: string,
                    decode: string -> Option<Value>, formDecode: string -> Dict, loadable: Loadable, url: string)
    requires url == CleanUrl(RawUrl(query))
    ensures Respond(routes, reqMethod, query, input, decode, formDecode, loadable) ==
      RunOutcome(routes, reqMethod, url, ExtractVersion(url), ExtractRoute(url), [],
                 ParseBody(reqMethod, input, decode, formDecode), query, loadable)
  {
  }

  /** The fields the constructor fills in for GET /api/v1/products/42. */
  lemma ShowFields(reqMethod: string, url: string, input: string,
                   decode: string -> Option<Value>, formDecode: string -> Dict)
    requires reqMethod == "GET" && url == "api/v1/products/42"
    ensures ExtractVersion(url) == "v1" && ExtractRoute(url) == "/products/42"
    ensures ParseBody(reqMethod, input, decode, formDecode) == Arr([])
  {
    var t, rest := "v1", "products/42";
    ShowUrlParts(url, t, rest);
  }

  /**
   * GET /api/v1/products/42 on a fresh App: V1\ProductController::show
   * is called with "42" as its one argument and the request data built
   * from the id capture, the query array and an empty body.
   */
  lemma ShowRequest(routes: Dict, reqMethod: string, query: Dict, input: string,
                    decode: string -> Option<Value>, formDecode: string -> Dict, loadable: Loadable, cc: string)
    requires routes == RoutesConfig && reqMethod == "GET" && query == ShowQuery
    requires cc == "Controllers\\V1\\ProductController"
    requires cc in loadable.classes && (cc, "show") in loadable.methods
    ensures Respond(routes, reqMethod, query, input, decode, formDecode, loadable) ==
      Invoke(cc, "show", RequestData(ShowCaps, query, Arr([]), reqMethod, "v1"), [Str("42")])
  {
    var url := CleanUrl(RawUrl(query));
    ShowUrlIs(query, url);
    ShowFields(reqMethod, url, input, decode, formDecode);
    RespondRuns(routes, reqMethod, query, input, decode, formDecode, loadable, url);
    var body := ParseBody(reqMethod, input, decode, formDecode);
    var h, caps, params := ShowHandler, ShowCaps, [];
    ShowRun(routes, reqMethod, url, ExtractVersion(url), ExtractRoute(url), body, query, loadable, cc, h, caps, params);
  }
}
