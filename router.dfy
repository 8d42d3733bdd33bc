// The request pipeline of app/Core/App.php as pure functions:
// cleanUrl, extractVersion, extractRoute, parseRequestBody and the
// first-match scan of matchRoute / matchPath over an ordered table.
module Router {
  import opened Wrappers
  import opened Strings
  import opened Php
  import opened Routes

  // ---------------------------------------------------------------
  // cleanUrl (app/Core/App.php:130-145)
  // ---------------------------------------------------------------

  /** The punctuation FILTER_SANITIZE_URL keeps besides ASCII letters and digits. */
  const UrlPunctuation: set<char> :=
    {'$', '-', '_', '.', '+', '!', '*', '\'', '(', ')', ',', '{', '}', '|', '\\', '^', '~',
     '[', ']', '`', '<', '>', '#', '%', '"', ';', '/', '?', ':', '@', '&', '='}

  predicate UrlChar(c: char)
  {
    'a' <= c <= 'z' || 'A' <= c <= 'Z' || IsDigit(c) || c in UrlPunctuation
  }

  /** filter_var(s, FILTER_SANITIZE_URL): drop every other character. */
  function SanitizeUrl(s: string): (r: string)
    ensures |r| <= |s|
    ensures forall i :: 0 <= i < |r| ==> UrlChar(r[i])
    ensures '?' !in s ==> '?' !in r
    ensures (forall i :: 0 <= i < |s| ==> UrlChar(s[i])) ==> r == s
    decreases |s|
  {
    if s == [] then []
    else
      var rest := SanitizeUrl(s[1..]);
      assert '?' !in s ==> '?' !in s[1..] && s[0] != '?';
      if UrlChar(s[0]) then
        assert s == [s[0]] + s[1..];
        [s[0]] + rest
      else rest
  }

  /**
   * strtok(s, '?'): the first run of non-'?' characters; "" (PHP's
   * false, which trim turns into "") when there is none.
   */
  function FirstToken(s: string): (r: string)
    ensures '?' !in r
    ensures r == [] <==> forall i :: 0 <= i < |s| ==> s[i] == '?'
  {
    var t := TrimLeft(s, {'?'});
    TrimLeftDrops(s, {'?'});
    var i := IndexOf(t, '?');
    if i < 0 then
      assert t != [] ==> s[|s| - |t|] == t[0];
      t
    else
      assert i > 0 && t[0] == s[|s| - |t|];
      t[..i]
  }

  /** The query string is cut off, slashes trimmed, bad characters dropped, letters lower-cased. */
  function CleanUrl(url: string): (r: string)
    ensures '?' !in r
    ensures forall i :: 0 <= i < |r| ==> UrlChar(r[i]) && !IsUpper(r[i])
  {
    var t := FirstToken(url);
    var u := Trim(t, {'/'});
    TrimKeepsOut(t, {'/'}, '?');
    var v := SanitizeUrl(u);
    LowerKeepsUrlChars(v);
    ToLower(v)
  }

  lemma TrimKeepsOut(s: string, cs: set<char>, c: char)
    requires c !in s
    ensures c !in Trim(s, cs)
  {
    var l := TrimLeft(s, cs);
    var r := TrimRight(l, cs);
    assert Trim(s, cs) == r;
    forall i | 0 <= i < |r|
      ensures r[i] != c
    {
      assert r[i] == l[i];
      assert s[|s| - |l| + i] in s;
    }
  }

  lemma LowerKeepsUrlChars(v: string)
    requires forall i :: 0 <= i < |v| ==> UrlChar(v[i]) && v[i] != '?'
    ensures '?' !in ToLower(v)
    ensures forall i :: 0 <= i < |v| ==> UrlChar(ToLower(v)[i])
  {
    var r := ToLower(v);
    forall i | 0 <= i < |v| ensures UrlChar(r[i]) && r[i] != '?' {
      assert r[i] == LowerChar(v[i]);
    }
  }

  /** A url that cleanUrl leaves as it is. */
  predicate IsCleanUrl(u: string)
  {
    '?' !in u && (u == [] || (u[0] != '/' && u[|u| - 1] != '/')) &&
    forall i :: 0 <= i < |u| ==> UrlChar(u[i]) && !IsUpper(u[i])
  }

  lemma CleanUrlOfClean(u: string)
    requires IsCleanUrl(u)
    ensures CleanUrl(u) == u
  {
    FirstTokenOfUnmarked(u);
    TrimNothing(u, {'/'});
    assert Trim(FirstToken(u), {'/'}) == u;
    assert SanitizeUrl(u) == u;
    ToLowerOfLower(u);
  }

  lemma FirstTokenOfUnmarked(s: string)
    requires '?' !in s
    ensures FirstToken(s) == s
  {
    assert s != [] ==> s[0] in s;
    assert TrimLeft(s, {'?'}) == s;
  }

  lemma TrimNothing(s: string, cs: set<char>)
    requires s == [] || (s[0] !in cs && s[|s| - 1] !in cs)
    ensures Trim(s, cs) == s
  {
    assert TrimLeft(s, cs) == s;
  }

  lemma ToLowerOfLower(s: string)
    requires forall i :: 0 <= i < |s| ==> !IsUpper(s[i])
    ensures ToLower(s) == s
  {
  }

  /** What follows the first '?' of a url plays no part. */
  lemma CleanUrlDropsQuery(p: string, q: string)
    requires p != [] && '?' !in p
    ensures CleanUrl(p + "?" + q) == CleanUrl(p)
  {
    FirstTokenAtMark(p, q);
    FirstTokenOfUnmarked(p);
  }

  lemma FirstTokenAtMark(p: string, q: string)
    requires p != [] && '?' !in p
    ensures FirstToken(p + "?" + q) == p
  {
    var s := p + "?" + q;
    assert p[0] in p;
    assert TrimLeft(s, {'?'}) == s;
    assert s == p + ['?'] + q;
    SplitOnceAt(p, q, '?');
    assert s[..|p|] == p;
  }

  // ---------------------------------------------------------------
  // extractVersion and extractRoute (app/Core/App.php:152-201)
  // ---------------------------------------------------------------

  /** preg_match('/^v[1-3]$/', t); `$` also accepts one trailing newline. */
  predicate IsVersionToken(t: string)
  {
    (|t| == 2 || (|t| == 3 && t[2] == '\n')) && t[0] == 'v' && '1' <= t[1] <= '3'
  }

  /** The version named by "api/<version>/...", else v1. */
  function ExtractVersion(url: string): (v: string)
    ensures v == "v1" || IsVersionToken(v)
  {
    var parts := Split(url, '/');
    if parts[0] == "api" && |parts| >= 2 && IsVersionToken(parts[1]) then parts[1] else "v1"
  }

  /** The pieces left once a leading "api" and a recognised version are removed. */
  function RouteParts(url: string): seq<string>
  {
    var parts := Split(url, '/');
    if parts[0] == "api" then
      if |parts| >= 2 && IsVersionToken(parts[1]) then parts[2..] else parts[1..]
    else parts
  }

  /**
   * The leading-slash fix-up: a truthy path not starting with '/' gets
   * one; a path PHP finds empty ("" or "0") becomes "/".
   */
  function Rooted(s: string): (r: string)
    ensures |r| >= 1 && r[0] == '/'
    ensures s != [] && s[0] == '/' ==> r == s
    ensures s != [] && s != "0" && s[0] != '/' ==> r == "/" + s
    ensures s == [] || s == "0" ==> r == "/"
  {
    if s == [] || s == "0" then "/" else if s[0] == '/' then s else "/" + s
  }

  /** extractRoute: the url's pieces after the api and version prefixes, joined and rooted. */
  function ExtractRoute(url: string): (r: string)
    ensures |r| >= 1 && r[0] == '/'
  {
    Rooted(Implode(RouteParts(url), "/"))
  }

  /** A url that does not start with the "api" piece is routed whole. */
  lemma UnprefixedUrl(url: string)
    requires Split(url, '/')[0] != "api"
    ensures ExtractVersion(url) == "v1"
    ensures ExtractRoute(url) == Rooted(url)
  {
    JoinSplit(url, '/');
  }

  /**
   * "api/t/rest": a recognised version token t is taken as the version
   * and removed; any other t stays in the route under version v1.
   */
  lemma ApiPrefixedUrl(t: string, rest: string)
    requires '/' !in t
    ensures ExtractVersion("api/" + t + "/" + rest) == if IsVersionToken(t) then t else "v1"
    ensures ExtractRoute("api/" + t + "/" + rest) ==
      if IsVersionToken(t) then Rooted(rest) else Rooted(t + "/" + rest)
  {
    var url := "api/" + t + "/" + rest;
    assert url == "api" + ['/'] + (t + ['/'] + rest);
    SplitAtSeparator("api", t + ['/'] + rest, '/');
    SplitAtSeparator(t, rest, '/');
    var parts := Split(url, '/');
    assert parts == ["api", t] + Split(rest, '/');
    JoinSplit(rest, '/');
    assert parts[2..] == Split(rest, '/');
    if !IsVersionToken(t) {
      assert parts[1..] == [t] + Split(rest, '/');
      assert t + "/" + rest == t + ['/'] + rest;
      SplitAtSeparator(t, rest, '/');
      JoinSplit(t + "/" + rest, '/');
    }
  }

  /** A cleaned url never carries a newline, so its version is v1, v2 or v3. */
  lemma VersionOfCleanUrl(url: string)
    ensures ExtractVersion(CleanUrl(url)) in {"v1", "v2", "v3"}
  {
    var u := CleanUrl(url);
    NoNewline(u);
    VersionWithoutNewline(u);
  }

  lemma NoNewline(u: string)
    requires forall i :: 0 <= i < |u| ==> UrlChar(u[i])
    ensures '\n' !in u
  {
    assert !UrlChar('\n');
  }

  lemma VersionWithoutNewline(u: string)
    requires '\n' !in u
    ensures ExtractVersion(u) in {"v1", "v2", "v3"}
  {
    var parts := Split(u, '/');
    SplitChars(u, '/');
    if parts[0] == "api" && |parts| >= 2 && IsVersionToken(parts[1]) {
      var t := parts[1];
      assert t in parts;
      assert t == ['v', t[1]];
    }
  }

  // ---------------------------------------------------------------
  // parseRequestBody (app/Core/App.php:206-226)
  // ---------------------------------------------------------------

  /** The methods whose body is read. */
  predicate HasBody(reqMethod: string)
  {
    reqMethod in ["POST", "PUT", "DELETE"]
  }

  /**
   * The request body: read only for POST, PUT and DELETE; input PHP
   * finds empty ("" or "0") leaves `[]`; input json_decode accepts is
   * taken whole, whatever its type; anything else is parse_str'd.
   * decode and formDecode stand for json_decode and parse_str.
   */
  function ParseBody(reqMethod: string, input: string,
                     decode: string -> Option<Value>, formDecode: string -> Dict): (body: Value)
    ensures !HasBody(reqMethod) || input == "" || input == "0" ==> body == Arr([])
    ensures HasBody(reqMethod) && input != "" && input != "0" ==>
      body == match decode(input) case Some(v) => v case None => Arr(formDecode(input))
  {
    if HasBody(reqMethod) && input != "" && input != "0" then
      match decode(input)
      case Some(v) => v
      case None => Arr(formDecode(input))
    else Arr([])
  }

  // ---------------------------------------------------------------
  // matchPath (app/Core/App.php:291-318)
  // ---------------------------------------------------------------

  /** A literal piece matches itself; a placeholder matches any non-empty piece. */
  predicate SegMatches(g: Seg, piece: string)
  {
    match g
    case Lit(t) => t == piece
    case Param(_) => piece != ""
  }

  /** Every piece matches the pattern segment at its position. */
  predicate SegsMatch(p: seq<Seg>, q: seq<string>)
  {
    |p| == |q| && forall i :: 0 <= i < |p| ==> SegMatches(p[i], q[i])
  }

  /**
   * Segment-wise, anchored match of pieces against a pattern, with the
   * named captures in pattern order.
   */
  function MatchSegs(p: seq<Seg>, q: seq<string>): (r: Option<Dict>)
    ensures r.Some? <==> SegsMatch(p, q)
    ensures r.Some? ==> |r.value| == |ParamNames(p)|
    ensures r.Some? ==> forall i :: 0 <= i < |r.value| ==> r.value[i].key == StrKey(ParamNames(p)[i])
    decreases |p|
  {
    if p == [] then (if q == [] then Some([]) else None)
    else if q == [] || !SegMatches(p[0], q[0]) then None
    else match MatchSegs(p[1..], q[1..])
      case None => None
      case Some(caps) =>
        assert forall i :: 1 <= i < |p| ==> p[i] == p[1..][i - 1] && q[i] == q[1..][i - 1];
        Some((if p[0].Param? then [Entry(StrKey(p[0].name), Str(q[0]))] else []) + caps)
  }

  /** The placeholder names of a pattern, in order. */
  function ParamNames(p: seq<Seg>): seq<string>
    decreases |p|
  {
    if p == [] then [] else (if p[0].Param? then [p[0].name] else []) + ParamNames(p[1..])
  }

  /**
   * Each placeholder captures the piece at its own position: the j-th
   * segment, a placeholder, gives the capture numbered by the
   * placeholders before it, under its name and holding the j-th piece.
   */
  lemma {:induction false} MatchSegsCaptures(p: seq<Seg>, q: seq<string>, j: nat)
    requires SegsMatch(p, q) && j < |p| && p[j].Param?
    ensures MatchSegs(p, q).Some?
    ensures var caps := MatchSegs(p, q).value;
      |ParamNames(p[..j])| < |caps| && caps[|ParamNames(p[..j])|] == Entry(StrKey(p[j].name), Str(q[j]))
    decreases |p|
  {
    var caps := MatchSegs(p, q).value;
    var head: Dict := if p[0].Param? then [Entry(StrKey(p[0].name), Str(q[0]))] else [];
    assert SegsMatch(p[1..], q[1..]) by {
      assert forall i :: 0 <= i < |p| - 1 ==> p[1..][i] == p[i + 1] && q[1..][i] == q[i + 1];
    }
    var tail := MatchSegs(p[1..], q[1..]).value;
    assert caps == head + tail;
    if j == 0 {
      assert p[..0] == [];
    } else {
      MatchSegsCaptures(p[1..], q[1..], j - 1);
      var pre := p[..j];
      assert pre[0] == p[0] && pre[1..] == p[1..][..j - 1];
      assert |ParamNames(pre)| == |head| + |ParamNames(p[1..][..j - 1])|;
      assert p[1..][j - 1] == p[j] && q[1..][j - 1] == q[j];
    }
  }

  /** matchPath: the pattern text against the request path, piece by piece. */
  function MatchPath(pattern: string, path: string): Option<Dict>
  {
    MatchSegs(ParsePattern(pattern), Split(path, '/'))
  }

  /** The match is anchored: a path with more or fewer pieces than the pattern fails. */
  lemma MatchPathAnchored(pattern: string, path: string)
    ensures |Split(path, '/')| != |Split(pattern, '/')| ==> MatchPath(pattern, path).None?
  {
  }

  // ---------------------------------------------------------------
  // matchRoute (app/Core/App.php:257-284)
  // ---------------------------------------------------------------

  /** The winning handler and the captures it gets. */
  datatype Hit = Hit(handler: Value, params: Dict)

  /** One table key against the request: same method and a matching path. */
  function KeyHit(k: Key, reqMethod: string, path: string): Option<Dict>
  {
    var (verb, pattern) := ParseKey(KeyString(k));
    if verb == reqMethod then MatchPath(pattern, path) else None
  }

  /** The first entry, in table order, that matches the request. */
  function Match(d: Dict, reqMethod: string, path: string): (r: Option<Hit>)
    ensures r.Some? ==> (exists i :: 0 <= i < |d| && d[i].val == r.value.handler &&
                                     KeyHit(d[i].key, reqMethod, path) == Some(r.value.params))
    decreases |d|
  {
    if d == [] then None
    else match KeyHit(d[0].key, reqMethod, path)
      case Some(caps) => Some(Hit(d[0].val, caps))
      case None =>
        var r := Match(d[1..], reqMethod, path);
        assert r.Some? ==> (exists i :: 0 <= i < |d[1..]| && d[1..][i].val == r.value.handler &&
                                        KeyHit(d[1..][i].key, reqMethod, path) == Some(r.value.params));
        r
  }

  /** Every matching entry, in table order. */
  function Hits(d: Dict, reqMethod: string, path: string): seq<Hit>
    decreases |d|
  {
    if d == [] then [] else EntryHits(d[0], reqMethod, path) + Hits(d[1..], reqMethod, path)
  }

  /** The hit of one entry, if it matches. */
  function EntryHits(e: Entry, reqMethod: string, path: string): (hs: seq<Hit>)
    ensures |hs| <= 1
  {
    match KeyHit(e.key, reqMethod, path)
    case Some(caps) => [Hit(e.val, caps)]
    case None => []
  }

  /** The key of the first matching entry. */
  function FirstHitKey(d: Dict, reqMethod: string, path: string): (k: Option<Key>)
    ensures k.Some? ==> HasKey(d, k.value) && KeyHit(k.value, reqMethod, path).Some?
    ensures k.Some? ==> forall j :: 0 <= j < IndexOfKey(d, k.value) ==>
      KeyHit(d[j].key, reqMethod, path).None?
    ensures k.None? ==> forall j :: 0 <= j < |d| ==> KeyHit(d[j].key, reqMethod, path).None?
    decreases |d|
  {
    if d == [] then None
    else if KeyHit(d[0].key, reqMethod, path).Some? then Some(d[0].key)
    else
      var k := FirstHitKey(d[1..], reqMethod, path);
      assert k.Some? ==> d[0].key != k.value;
      k
  }

  /** The scan returns the first of all the hits. */
  lemma {:induction false} MatchIsFirstHit(d: Dict, reqMethod: string, path: string)
    ensures Match(d, reqMethod, path) == if Hits(d, reqMethod, path) == [] then None
      else Some(Hits(d, reqMethod, path)[0])
    decreases |d|
  {
    if d != [] {
      MatchIsFirstHit(d[1..], reqMethod, path);
    }
  }

  lemma {:induction false} HitsAppend(a: Dict, b: Dict, reqMethod: string, path: string)
    ensures Hits(a + b, reqMethod, path) == Hits(a, reqMethod, path) + Hits(b, reqMethod, path)
    decreases |a|
  {
    if a == [] {
      assert a + b == b;
    } else {
      AppendTail(a, b);
      HitsAppend(a[1..], b, reqMethod, path);
      var h := EntryHits(a[0], reqMethod, path);
      assert Hits(a + b, reqMethod, path) == h + Hits(a[1..] + b, reqMethod, path);
      assert h + (Hits(a[1..], reqMethod, path) + Hits(b, reqMethod, path))
          == (h + Hits(a[1..], reqMethod, path)) + Hits(b, reqMethod, path);
    }
  }

  /** The scan's outcome through the first matching key and the value at it. */
  lemma {:induction false} MatchByKey(d: Dict, reqMethod: string, path: string)
    ensures Match(d, reqMethod, path) == match FirstHitKey(d, reqMethod, path)
      case None => None
      case Some(k) => Some(Hit(Lookup(d, k).value, KeyHit(k, reqMethod, path).value))
    decreases |d|
  {
    if d != [] && KeyHit(d[0].key, reqMethod, path).None? {
      MatchByKey(d[1..], reqMethod, path);
      var k := FirstHitKey(d[1..], reqMethod, path);
      if k.Some? {
        assert d[0].key != k.value;
        LookupCons(d, k.value);
      }
    }
  }

  lemma {:induction false} FirstHitKeyAppend(a: Dict, b: Dict, reqMethod: string, path: string)
    ensures FirstHitKey(a + b, reqMethod, path) ==
      if FirstHitKey(a, reqMethod, path).Some? then FirstHitKey(a, reqMethod, path)
      else FirstHitKey(b, reqMethod, path)
    decreases |a|
  {
    if a == [] {
      assert a + b == b;
    } else {
      AppendTail(a, b);
      FirstHitKeyAppend(a[1..], b, reqMethod, path);
    }
  }

  /** FirstHitKey looks only at the keys, in order. */
  lemma {:induction false} FirstHitKeySameKeys(d: Dict, e: Dict, reqMethod: string, path: string)
    requires Keys(d) == Keys(e)
    ensures FirstHitKey(d, reqMethod, path) == FirstHitKey(e, reqMethod, path)
    decreases |d|
  {
    if d != [] {
      assert d[0].key == Keys(d)[0] == Keys(e)[0] == e[0].key;
      assert Keys(d[1..]) == Keys(d)[1..] && Keys(e[1..]) == Keys(e)[1..];
      FirstHitKeySameKeys(d[1..], e[1..], reqMethod, path);
    }
  }

  lemma FirstHitKeyPut(d: Dict, k: Key, v: Value, reqMethod: string, path: string)
    ensures FirstHitKey(Put(d, k, v), reqMethod, path) == FirstHitKey(d + [Entry(k, v)], reqMethod, path)
  {
    FirstHitKeyAppend(d, [Entry(k, v)], reqMethod, path);
    if HasKey(d, k) {
      FirstHitKeySameKeys(Put(d, k, v), d, reqMethod, path);
      var i := IndexOfKey(d, k);
      assert d[i].key == k;
    }
  }

  lemma {:induction false} FirstHitKeyAssign(acc: Dict, es: seq<Entry>, reqMethod: string, path: string)
    ensures FirstHitKey(Assign(acc, es), reqMethod, path) == FirstHitKey(acc + es, reqMethod, path)
    decreases |es|
  {
    if es == [] {
      assert acc + es == acc;
    } else {
      var e := es[0];
      var rest := es[1..];
      var d := Put(acc, e.key, e.val);
      assert Assign(acc, es) == Assign(d, rest);
      FirstHitKeyAssign(d, rest, reqMethod, path);
      FirstHitKeyStep(acc, e, rest, reqMethod, path);
      assert FirstHitKey(Assign(acc, es), reqMethod, path) == FirstHitKey(acc + [e] + rest, reqMethod, path);
      ConsSplit(acc, es);
    }
  }

  lemma ConsSplit(acc: Dict, es: seq<Entry>)
    requires es != []
    ensures acc + es == acc + [es[0]] + es[1..]
  {
    assert es == [es[0]] + es[1..];
  }

  lemma FirstHitKeyStep(acc: Dict, e: Entry, rest: seq<Entry>, reqMethod: string, path: string)
    ensures FirstHitKey(Put(acc, e.key, e.val) + rest, reqMethod, path) ==
            FirstHitKey(acc + [e] + rest, reqMethod, path)
  {
    var d := Put(acc, e.key, e.val);
    FirstHitKeyAppend(d, rest, reqMethod, path);
    FirstHitKeyPut(acc, e.key, e.val, reqMethod, path);
    FirstHitKeyAppend(acc + [e], rest, reqMethod, path);
  }

  /**
   * Scanning an array literal: the winner is the first key, in source
   * order, that matches the request, and its handler is the last value
   * the literal gives that key.
   */
  lemma MatchLiteral(lit: seq<Entry>, reqMethod: string, path: string)
    ensures Match(Literal(lit), reqMethod, path) == match FirstHitKey(lit, reqMethod, path)
      case None => None
      case Some(k) => Some(Hit(LastValue(lit, k).value, KeyHit(k, reqMethod, path).value))
  {
    MatchByKey(Literal(lit), reqMethod, path);
    FirstHitKeyAssign([], lit, reqMethod, path);
    assert [] + lit == lit;
    var k := FirstHitKey(lit, reqMethod, path);
    if k.Some? {
      AssignLookup([], lit, k.value);
    }
  }

  /**
   * Collapsing repeated keys neither creates nor hides a match: the
   * literal matches iff one of its written entries does, and the winner
   * is one of those entries' hits.
   */
  lemma LiteralHits(lit: seq<Entry>, reqMethod: string, path: string)
    ensures Match(Literal(lit), reqMethod, path).None? <==> Hits(lit, reqMethod, path) == []
    ensures Match(Literal(lit), reqMethod, path).Some? ==>
      Match(Literal(lit), reqMethod, path).value in Hits(lit, reqMethod, path)
  {
    MatchLiteral(lit, reqMethod, path);
    HitsEmpty(lit, reqMethod, path);
    var k := FirstHitKey(lit, reqMethod, path);
    if k.Some? {
      LastValueEntry(lit, k.value);
      var v := LastValue(lit, k.value).value;
      HitsMember(lit, Entry(k.value, v), reqMethod, path);
    }
  }

  lemma {:induction false} HitsEmpty(d: Dict, reqMethod: string, path: string)
    ensures Hits(d, reqMethod, path) == [] <==> forall j :: 0 <= j < |d| ==> KeyHit(d[j].key, reqMethod, path).None?
    decreases |d|
  {
    if d != [] {
      var rest := d[1..];
      HitsEmpty(rest, reqMethod, path);
      assert forall j :: 1 <= j < |d| ==> d[j] == rest[j - 1];
      if EntryHits(d[0], reqMethod, path) == [] {
        assert Hits(d, reqMethod, path) == Hits(rest, reqMethod, path);
      } else {
        assert Hits(d, reqMethod, path) != [];
      }
    }
  }

  lemma {:induction false} HitsMember(d: Dict, e: Entry, reqMethod: string, path: string)
    requires e in d && KeyHit(e.key, reqMethod, path).Some?
    ensures Hit(e.val, KeyHit(e.key, reqMethod, path).value) in Hits(d, reqMethod, path)
    decreases |d|
  {
    if d[0] != e {
      HitsMember(d[1..], e, reqMethod, path);
    }
  }

  lemma {:induction false} LastValueEntry(es: seq<Entry>, k: Key)
    requires HasKey(es, k)
    ensures Entry(k, LastValue(es, k).value) in es
    decreases |es|
  {
    if LastValue(es[1..], k).Some? {
      LastValueEntry(es[1..], k);
    }
  }

  /** `$this->routes[$this->version] ?? []`, read as the array foreach walks. */
  function VersionRoutes(routes: Dict, version: string): (d: Dict)
    ensures Lookup(routes, StrKey(version)).None? ==> d == []
  {
    match Coalesce(routes, StrKey(version), Arr([]))
    case Arr(es) => es
    case _ => []
  }

  /** matchRoute's result: no table, an empty table or no hit is no handler. */
  function MatchRoute(routes: Dict, version: string, reqMethod: string, path: string): (r: Option<Hit>)
    ensures VersionRoutes(routes, version) == [] ==> r.None?
  {
    Match(VersionRoutes(routes, version), reqMethod, path)
  }
}
