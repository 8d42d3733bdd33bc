// The App object of app/Core/App.php: the request fields it fills in
// the constructor, the matchRoute loop that writes the captures into
// `params`, dispatch, run and handleNotFound.
module Application {
  import opened Wrappers
  import opened Strings
  import opened Php
  import opened Routes
  import opened Router

  /**
   * The classes the autoloader can load and the methods they have,
   * standing for class_exists and method_exists.
   */
  datatype Loadable = Loadable(classes: set<string>, methods: set<(string, string)>)

  /** How run() ends. */
  datatype Outcome =
    | Preflight
      // OPTIONS: status 200 and nothing else
    | NotFound(body: Dict)
      // status 404 and the handleNotFound body
    | Invoke(controller: string, action: string, data: Dict, args: seq<Value>)
      // the controller method called with setRequestData(data) and args

  /** `$_GET['url'] ?? ''`, as the string functions of cleanUrl receive it. */
  function RawUrl(query: Dict): string
  {
    ToStr(Coalesce(query, StrKey("url"), Str("")))
  }

  /**
   * The body of handleNotFound (app/Core/App.php:456-464); its keys are
   * distinct, so the array is its entries in order.
   */
  function NotFoundBody(reqMethod: string, url: string, version: string): (body: Dict)
  {
    [Entry(StrKey("success"), Bool(false)),
     Entry(StrKey("error"), Str("Not Found")),
     Entry(StrKey("message"), Str("The requested endpoint does not exist")),
     Entry(StrKey("method"), Str(reqMethod))] +
    [Entry(StrKey("url"), Str(url)),
     Entry(StrKey("version"), Str(version)),
     Entry(StrKey("available_versions"), Arr(ListOf([Str("v1"), Str("v2"), Str("v3")])))]
  }

  /**
   * The not-found envelope: success false, the error and its message,
   * the request's method, url and version, and the three versions
   * v1, v2, v3 listed in order.
   */
  lemma NotFoundFields(reqMethod: string, url: string, version: string, body: Dict)
    requires body == NotFoundBody(reqMethod, url, version)
    ensures
      Lookup(body, StrKey("success")) == Some(Bool(false)) &&
      Lookup(body, StrKey("error")) == Some(Str("Not Found")) &&
      Lookup(body, StrKey("message")) == Some(Str("The requested endpoint does not exist")) &&
      Lookup(body, StrKey("method")) == Some(Str(reqMethod)) &&
      Lookup(body, StrKey("url")) == Some(Str(url)) &&
      Lookup(body, StrKey("version")) == Some(Str(version)) &&
      Lookup(body, StrKey("available_versions")) ==
        Some(Arr(ListOf([Str("v1"), Str("v2"), Str("v3")])))
  {
    var head := [Entry(StrKey("success"), Bool(false)), Entry(StrKey("error"), Str("Not Found")),
                 Entry(StrKey("message"), Str("The requested endpoint does not exist")),
                 Entry(StrKey("method"), Str(reqMethod))];
    var versions := Arr(ListOf([Str("v1"), Str("v2"), Str("v3")]));
    var tail := [Entry(StrKey("url"), Str(url)), Entry(StrKey("version"), Str(version)),
                 Entry(StrKey("available_versions"), versions)];
    assert "success"[0] == 's' && "error"[0] == 'e' && "message"[0] == 'm' && "method"[0] == 'm';
    HeadLookups(head[0].val, head[1].val, head[2].val, head[3].val, tail);
    TailLookups(head, Str(url), Str(version), versions);
  }

  /** Lookups of the envelope's first four keys, whatever follows them. */
  lemma HeadLookups(a: Value, b: Value, c: Value, d: Value, tail: Dict)
    ensures var body := [Entry(StrKey("success"), a), Entry(StrKey("error"), b), Entry(StrKey("message"), c),
                         Entry(StrKey("method"), d)] + tail;
      Lookup(body, StrKey("success")) == Some(a) && Lookup(body, StrKey("error")) == Some(b) &&
      Lookup(body, StrKey("message")) == Some(c) && Lookup(body, StrKey("method")) == Some(d)
  {
    var body := [Entry(StrKey("success"), a), Entry(StrKey("error"), b), Entry(StrKey("message"), c),
                 Entry(StrKey("method"), d)] + tail;
    assert "success"[0] != "error"[0];
    assert "success"[0] != "message"[0] && "error"[0] != "message"[0];
    assert "success"[0] != "method"[0] && "error"[0] != "method"[0] && "message"[2] != "method"[2];
    LookupFirst(body, 0);
    LookupFirst(body, 1);
    LookupFirst(body, 2);
    LookupFirst(body, 3);
  }

  /** Lookups of the envelope's last three keys behind a head holding only the first four. */
  lemma TailLookups(head: Dict, e: Value, f: Value, g: Value)
    requires forall i :: 0 <= i < |head| ==> head[i].key.StrKey? && head[i].key.s != [] && head[i].key.s[0] in "sem"
    ensures var body := head + [Entry(StrKey("url"), e), Entry(StrKey("version"), f),
                                Entry(StrKey("available_versions"), g)];
      Lookup(body, StrKey("url")) == Some(e) && Lookup(body, StrKey("version")) == Some(f) &&
      Lookup(body, StrKey("available_versions")) == Some(g)
  {
    var body := head + [Entry(StrKey("url"), e), Entry(StrKey("version"), f), Entry(StrKey("available_versions"), g)];
    assert "url"[0] != "version"[0] && "url"[0] != "available_versions"[0] && "version"[0] != "available_versions"[0];
    assert "url"[0] == 'u' && "version"[0] == 'v' && "available_versions"[0] == 'a';
    LookupFirst(body, |head|);
    LookupFirst(body, |head| + 1);
    LookupFirst(body, |head| + 2);
  }


  /** The request data dispatch hands to setRequestData (app/Core/App.php:356-362). */
  function RequestData(params: Dict, query: Dict, body: Value, reqMethod: string, version: string): Dict
  {
    Literal([
      Entry(StrKey("params"), Arr(params)),
      Entry(StrKey("query"), Arr(query)),
      Entry(StrKey("body"), body),
      Entry(StrKey("method"), Str(reqMethod)),
      Entry(StrKey("version"), Str(version))])
  }

  /** `list($controllerName, $method) = explode('@', $handler)`: a missing part is null, read as "". */
  function HandlerParts(handler: string): (r: (string, string))
    ensures '@' !in r.0 && '@' !in r.1
    ensures '@' !in handler ==> r == (handler, "")
  {
    if '@' !in handler then
      SplitNoSeparator(handler, '@');
      (handler, "")
    else
      var parts := Split(handler, '@');
      assert parts[0] in parts;
      if |parts| >= 2 then
        assert parts[1] in parts;
        (parts[0], parts[1])
      else (parts[0], "")
  }

  /** The class name dispatch loads: "Controllers\" followed by the handler's class part. */
  function ControllerClass(handler: string): string
  {
    "Controllers\\" + HandlerParts(handler).0
  }

  /**
   * dispatch: a missing class and a missing method both end in the 404
   * body; otherwise the method is called with the captures' values in
   * capture order.
   */
  function DispatchOutcome(handler: string, params: Dict, query: Dict, body: Value,
                           reqMethod: string, url: string, version: string, loadable: Loadable): (o: Outcome)
    ensures o.Invoke? <==> ControllerClass(handler) in loadable.classes &&
                           (ControllerClass(handler), HandlerParts(handler).1) in loadable.methods
    ensures o.NotFound? ==> o.body == NotFoundBody(reqMethod, url, version)
    ensures o.Invoke? ==> o.controller == ControllerClass(handler) && o.action == HandlerParts(handler).1 &&
                          o.args == Values(params) && o.data == RequestData(params, query, body, reqMethod, version)
    ensures !o.Preflight?
  {
    var cls := ControllerClass(handler);
    var action := HandlerParts(handler).1;
    if cls !in loadable.classes || (cls, action) !in loadable.methods then
      NotFound(NotFoundBody(reqMethod, url, version))
    else
      Invoke(cls, action, RequestData(params, query, body, reqMethod, version), Values(params))
  }

  /**
   * run() on an App whose fields hold the given request: OPTIONS is
   * answered at once; no route or a falsy handler is a 404; otherwise
   * the winner is dispatched with the parameters matchRoute wrote.
   */
  function RunOutcome(routes: Dict, reqMethod: string, url: string, version: string, route: string,
                      params: Dict, body: Value, query: Dict, loadable: Loadable): (o: Outcome)
    ensures o.Preflight? <==> reqMethod == "OPTIONS"
    ensures o.NotFound? ==> o.body == NotFoundBody(reqMethod, url, version)
    ensures reqMethod != "OPTIONS" && MatchRoute(routes, version, reqMethod, route).None? ==>
      o == NotFound(NotFoundBody(reqMethod, url, version))
    ensures o.Invoke? ==> (
      MatchRoute(routes, version, reqMethod, route).Some? &&
      var hit := MatchRoute(routes, version, reqMethod, route).value;
      Truthy(hit.handler) && o.args == Values(Assign(params, hit.params)) &&
      o.controller == ControllerClass(ToStr(hit.handler)) && o.action == HandlerParts(ToStr(hit.handler)).1)
  {
    if reqMethod == "OPTIONS" then Preflight
    else match MatchRoute(routes, version, reqMethod, route)
      case None => NotFound(NotFoundBody(reqMethod, url, version))
      case Some(hit) =>
        if !Truthy(hit.handler) then NotFound(NotFoundBody(reqMethod, url, version))
        else DispatchOutcome(ToStr(hit.handler), Assign(params, hit.params), query, body,
                             reqMethod, url, version, loadable)
  }

  /**
   * A whole request: the App is built from the route table, the method,
   * the query array and the raw input, then run.
   */
  function Respond(routes: Dict, reqMethod: string, query: Dict, input: string,
                   decode: string -> Option<Value>, formDecode: string -> Dict, loadable: Loadable): Outcome
  {
    var url := CleanUrl(RawUrl(query));
    RunOutcome(routes, reqMethod, url, ExtractVersion(url), ExtractRoute(url), [],
               ParseBody(reqMethod, input, decode, formDecode), query, loadable)
  }

  /**
   * The url, version and route parseRequest stores (app/Core/App.php:100-110):
   * the url is the cleaned query url, free of any query string; the
   * version is always one of v1, v2 and v3; the route is rooted.
   */
  method SplitRequestUrl(query: Dict) returns (url: string, version: string, route: string)
    ensures url == CleanUrl(RawUrl(query))
    ensures version == ExtractVersion(url) && route == ExtractRoute(url)
    ensures '?' !in url && forall i :: 0 <= i < |url| ==> UrlChar(url[i]) && !IsUpper(url[i])
    ensures version in {"v1", "v2", "v3"}
    ensures |route| >= 1 && route[0] == '/'
  {
    url := CleanUrl(RawUrl(query));
    version := ExtractVersion(url);
    route := ExtractRoute(url);
    VersionOfCleanUrl(RawUrl(query));
  }

  class App {
    var url: string
    var reqMethod: string
    var version: string
    var route: string
    var params: Dict
    var requestBody: Value
    var routes: Dict

    /** loadRoutes, then parseRequest (app/Core/App.php:46-126). */
    constructor (routesConfig: Dict, serverMethod: string, query: Dict, input: string,
                 decode: string -> Option<Value>, formDecode: string -> Dict)
      ensures routes == routesConfig && reqMethod == serverMethod
      ensures url == CleanUrl(RawUrl(query))
      ensures version == ExtractVersion(url) && route == ExtractRoute(url)
      ensures params == []
      ensures requestBody == ParseBody(serverMethod, input, decode, formDecode)
    {
      var cleaned, v, r := SplitRequestUrl(query);
      var b := ParseBody(serverMethod, input, decode, formDecode);
      routes := routesConfig;
      reqMethod := serverMethod;
      url := cleaned;
      version := v;
      route := r;
      params := [];
      requestBody := b;
    }

    /** The foreach of matchPath: every named capture is assigned into params in order. */
    method StoreCaptures(caps: Dict)
      modifies this
      ensures params == Assign(old(params), caps)
      ensures url == old(url) && reqMethod == old(reqMethod) && version == old(version)
      ensures route == old(route) && requestBody == old(requestBody) && routes == old(routes)
    {
      var j := 0;
      var acc := params;
      assert caps[0..] == caps;
      while j < |caps|
        invariant 0 <= j <= |caps|
        invariant Assign(acc, caps[j..]) == Assign(params, caps)
      {
        assert caps[j..][1..] == caps[j + 1..];
        acc := Put(acc, caps[j].key, caps[j].val);
        j := j + 1;
      }
      params := acc;
    }

    /**
     * matchRoute: the version's table is scanned in order; the first
     * entry with the request's method and a matching path wins, and only
     * its captures reach params.
     */
    method FindRoute() returns (handler: Option<Value>)
      modifies this
      ensures url == old(url) && reqMethod == old(reqMethod) && version == old(version)
      ensures route == old(route) && requestBody == old(requestBody) && routes == old(routes)
      ensures match MatchRoute(routes, version, reqMethod, route)
        case None => handler.None? && params == old(params)
        case Some(hit) => handler == Some(hit.handler) && params == Assign(old(params), hit.params)
    {
      var table := VersionRoutes(routes, version);
      if table == [] {
        return None;
      }
      var i := 0;
      while i < |table|
        invariant 0 <= i <= |table|
        invariant Match(table, reqMethod, route) == Match(table[i..], reqMethod, route)
        invariant params == old(params)
        invariant url == old(url) && reqMethod == old(reqMethod) && version == old(version)
        invariant route == old(route) && requestBody == old(requestBody) && routes == old(routes)
      {
        assert table[i..][1..] == table[i + 1..];
        var (verb, pattern) := ParseKey(KeyString(table[i].key));
        if verb == reqMethod {
          var caps := MatchPath(pattern, route);
          if caps.Some? {
            StoreCaptures(caps.value);
            return Some(table[i].val);
          }
        }
        i := i + 1;
      }
      return None;
    }

    /** dispatch (app/Core/App.php:326-371). */
    method Dispatch(handler: string, query: Dict, loadable: Loadable) returns (o: Outcome)
      ensures o == DispatchOutcome(handler, params, query, requestBody, reqMethod, url, version, loadable)
    {
      var (controllerName, action) := HandlerParts(handler);
      var controllerClass := "Controllers\\" + controllerName;
      if controllerClass !in loadable.classes {
        return NotFound(HandleNotFound());
      }
      if (controllerClass, action) !in loadable.methods {
        return NotFound(HandleNotFound());
      }
      var data := RequestData(params, query, requestBody, reqMethod, version);
      o := Invoke(controllerClass, action, data, Values(params));
    }

    /**
     * The body handleNotFound emits for this request: the not-found
     * envelope echoing the App's method, url and version.
     */
    function HandleNotFound(): (body: Dict)
      reads this
      ensures body == NotFoundBody(reqMethod, url, version)
      ensures Lookup(body, StrKey("success")) == Some(Bool(false))
      ensures Lookup(body, StrKey("method")) == Some(Str(reqMethod))
      ensures Lookup(body, StrKey("url")) == Some(Str(url))
      ensures Lookup(body, StrKey("version")) == Some(Str(version))
    {
      NotFoundFields(reqMethod, url, version, NotFoundBody(reqMethod, url, version));
      NotFoundBody(reqMethod, url, version)
    }

    /** run (app/Core/App.php:60-88). */
    method Run(query: Dict, loadable: Loadable) returns (o: Outcome)
      modifies this
      ensures o == RunOutcome(old(routes), old(reqMethod), old(url), old(version), old(route),
                              old(params), old(requestBody), query, loadable)
    {
      if reqMethod == "OPTIONS" {
        return Preflight;
      }
      var handler := FindRoute();
      if handler.None? || !Truthy(handler.value) {
        return NotFound(HandleNotFound());
      }
      o := Dispatch(ToStr(handler.value), query, loadable);
    }
  }

  /** index.php's `new App(); $app->run()`: the outcome is Respond's. */
  method Serve(routes: Dict, reqMethod: string, query: Dict, input: string,
               decode: string -> Option<Value>, formDecode: string -> Dict, loadable: Loadable)
    returns (o: Outcome)
    ensures o == Respond(routes, reqMethod, query, input, decode, formDecode, loadable)
  {
    var app := new App(routes, reqMethod, query, input, decode, formDecode);
    o := app.Run(query, loadable);
  }
}
