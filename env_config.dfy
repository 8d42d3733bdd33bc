// The bootstrap configuration: the .env parser and the DB_* constants of
// config/database.php, and from config/config.php the APP_* constants,
// the CORS origin decision, the OPTIONS short-circuit and the class
// autoloader's candidate paths. The .env file's lines, the request's
// Origin header and the set of existing files are inputs.
module Config {
  import opened Wrappers
  import opened Strings
  import opened Php
  import Application

  // ---------------------------------------------------------------
  // The .env file
  // ---------------------------------------------------------------

  /** The characters stripped around a value: both quote marks. */
  const Quotes: set<char> := {'"', '\''}

  /** A line whose trimmed form starts with # or is empty (or "0", which PHP's empty also treats as empty). */
  predicate Skipped(line: string)
  {
    var t := TrimWs(line);
    (t != [] && t[0] == '#') || !Truthy(Str(t))
  }

  /**
   * One line of the .env file: skipped lines and lines without '=' give
   * nothing; otherwise the line splits at its first '=', both sides are
   * trimmed and every leading and trailing quote mark is stripped from
   * the value.
   */
  function ParseLine(line: string): (r: Option<(string, string)>)
    ensures r.None? <==> Skipped(line) || '=' !in line
    ensures r.Some? ==> r.value.0 == [] || (r.value.0[0] !in Whitespace && r.value.0[|r.value.0| - 1] !in Whitespace)
    ensures r.Some? ==> r.value.1 == [] || (r.value.1[0] !in Quotes && r.value.1[|r.value.1| - 1] !in Quotes)
  {
    if Skipped(line) || '=' !in line then None
    else
      var parts := SplitOnce(line, '=');
      Some((TrimWs(parts[0]), Trim(TrimWs(parts[1]), Quotes)))
  }

  /** The line splits at its first '=' only, so the value keeps any later '='. */
  lemma ParseLineSplitsAtFirst(key: string, value: string)
    requires '=' !in key
    requires !Skipped(key + "=" + value)
    ensures ParseLine(key + "=" + value) == Some((TrimWs(key), Trim(TrimWs(value), Quotes)))
  {
    assert key + "=" + value == key + ['='] + value;
    SplitOnceAt(key, value, '=');
    assert '=' in key + "=" + value by {
      assert (key + "=" + value)[|key|] == '=';
    }
  }

  /** Quote marks around a value are stripped whether or not they match. */
  lemma QuotesStripped(v: string, open: char, close: char)
    requires open in Quotes && close in Quotes
    requires v == [] || (v[0] !in Quotes && v[|v| - 1] !in Quotes)
    ensures Trim([open] + v + [close], Quotes) == v
  {
    var s := [open] + v + [close];
    assert s[1..] == v + [close];
    if v == [] {
      assert (v + [close])[1..] == [];
      assert TrimLeft(s, Quotes) == [];
    } else {
      assert (v + [close])[0] == v[0];
      assert TrimLeft(s, Quotes) == v + [close];
      assert (v + [close])[..|v|] == v;
      assert TrimRight(v + [close], Quotes) == TrimRight(v, Quotes);
    }
  }

  /** The environment after the file's lines, in order: an assignment per parsed line, a later line overwriting an earlier one. */
  function ApplyLines(env: Dict, lines: seq<string>): Dict
    decreases |lines|
  {
    if lines == [] then env else ApplyLine(ApplyLines(env, lines[..|lines| - 1]), lines[|lines| - 1])
  }

  /** One line's effect: the parsed key set to the parsed value. */
  function ApplyLine(env: Dict, line: string): Dict
  {
    match ParseLine(line)
    case None => env
    case Some(kv) => Put(env, KeyOf(kv.0), Str(kv.1))
  }

  /** The value the last line setting key k gives it, searching the file from its end. */
  function LastSetting(lines: seq<string>, k: Key): Option<string>
    decreases |lines|
  {
    if lines == [] then None
    else
      var p := ParseLine(lines[|lines| - 1]);
      if p.Some? && KeyOf(p.value.0) == k then Some(p.value.1)
      else LastSetting(lines[..|lines| - 1], k)
  }

  /** A line that sets another key, or none, leaves a key as it was. */
  lemma ApplyLineOther(env: Dict, line: string, k: Key)
    requires ParseLine(line).None? || KeyOf(ParseLine(line).value.0) != k
    ensures Lookup(ApplyLine(env, line), k) == Lookup(env, k)
  {
  }

  /**
   * After the file a key holds the value of the last line that sets it;
   * a key no line sets keeps its value from the process environment.
   */
  lemma {:induction false} ApplyLinesLookup(env: Dict, lines: seq<string>, k: Key)
    ensures Lookup(ApplyLines(env, lines), k) ==
      if LastSetting(lines, k).Some? then Some(Str(LastSetting(lines, k).value)) else Lookup(env, k)
    decreases |lines|
  {
    if lines != [] {
      var init := lines[..|lines| - 1];
      var last := lines[|lines| - 1];
      var p := ParseLine(last);
      if !(p.Some? && KeyOf(p.value.0) == k) {
        ApplyLinesLookup(env, init, k);
        ApplyLineOther(ApplyLines(env, init), last, k);
      }
    }
  }

  /** Of two lines for the same key, the later one wins. */
  lemma LaterLineOverrides(env: Dict, first: string, second: string)
    requires ParseLine(first).Some? && ParseLine(second).Some?
    requires KeyOf(ParseLine(first).value.0) == KeyOf(ParseLine(second).value.0)
    ensures Lookup(ApplyLines(env, [first, second]), KeyOf(ParseLine(first).value.0)) ==
      Some(Str(ParseLine(second).value.1))
  {
    ApplyLinesLookup(env, [first, second], KeyOf(ParseLine(first).value.0));
    assert [first, second][..1] == [first];
  }

  /** One more line of the file is one more ApplyLine. */
  lemma ApplyLinesNext(env0: Dict, lines: seq<string>, i: int)
    requires 0 <= i < |lines|
    ensures ApplyLines(env0, lines[..i + 1]) == ApplyLine(ApplyLines(env0, lines[..i]), lines[i])
  {
    assert lines[..i + 1][..i] == lines[..i];
  }

  /** The loading loop of config/database.php; a missing .env file leaves the environment as it is. */
  method LoadEnv(env0: Dict, file: Option<seq<string>>) returns (env: Dict)
    ensures file.None? ==> env == env0
    ensures file.Some? ==> env == ApplyLines(env0, file.value)
  {
    env := env0;
    if file.None? {
      return;
    }
    var lines := file.value;
    var i := 0;
    while i < |lines|
      invariant 0 <= i <= |lines|
      invariant env == ApplyLines(env0, lines[..i])
    {
      var line := lines[i];
      ApplyLinesNext(env0, lines, i);
      var t := TrimWs(line);
      if (t != [] && t[0] == '#') || !Truthy(Str(t)) {
        i := i + 1;
        continue;
      }
      if '=' in line {
        var parts := SplitOnce(line, '=');
        var key := TrimWs(parts[0]);
        var value := TrimWs(parts[1]);
        value := Trim(value, Quotes);
        env := Put(env, KeyOf(key), Str(value));
      }
      i := i + 1;
    }
    assert lines[..|lines|] == lines;
  }

  // ---------------------------------------------------------------
  // Constants
  // ---------------------------------------------------------------

  /** DB_HOST, DB_NAME, DB_USER, DB_PASS and DB_CHARSET. */
  datatype DbConfig = DbConfig(host: Value, name: Value, user: Value, pass: Value, charset: Value)

  /** The DB_* constants: the environment's value whenever it is set, even to an empty string, else the default. */
  function DbSettings(env: Dict): (c: DbConfig)
    ensures Isset(env, StrKey("DB_HOST")) ==> c.host == Lookup(env, StrKey("DB_HOST")).value
    ensures !Isset(env, StrKey("DB_HOST")) ==> c.host == Str("localhost")
    ensures Isset(env, StrKey("DB_NAME")) ==> c.name == Lookup(env, StrKey("DB_NAME")).value
    ensures !Isset(env, StrKey("DB_NAME")) ==> c.name == Str("bugsydb")
    ensures Isset(env, StrKey("DB_USER")) ==> c.user == Lookup(env, StrKey("DB_USER")).value
    ensures !Isset(env, StrKey("DB_USER")) ==> c.user == Str("root")
    ensures Isset(env, StrKey("DB_PASS")) ==> c.pass == Lookup(env, StrKey("DB_PASS")).value
    ensures !Isset(env, StrKey("DB_PASS")) ==> c.pass == Str("")
    ensures Isset(env, StrKey("DB_CHARSET")) ==> c.charset == Lookup(env, StrKey("DB_CHARSET")).value
    ensures !Isset(env, StrKey("DB_CHARSET")) ==> c.charset == Str("utf8mb4")
  {
    DbConfig(Coalesce(env, StrKey("DB_HOST"), Str("localhost")),
             Coalesce(env, StrKey("DB_NAME"), Str("bugsydb")),
             Coalesce(env, StrKey("DB_USER"), Str("root")),
             Coalesce(env, StrKey("DB_PASS"), Str("")),
             Coalesce(env, StrKey("DB_CHARSET"), Str("utf8mb4")))
  }

  /** A DB_HOST line of the file is taken as written, even when its value is empty. */
  lemma HostFromFile(env0: Dict, lines: seq<string>, value: string)
    requires LastSetting(lines, KeyOf("DB_HOST")) == Some(value)
    ensures DbSettings(ApplyLines(env0, lines)).host == Str(value)
  {
    assert KeyOf("DB_HOST") == StrKey("DB_HOST");
    ApplyLinesLookup(env0, lines, StrKey("DB_HOST"));
  }

  /** Without a .env file and with none of the keys in the environment, every DB_* constant is its default. */
  lemma DbDefaults(env0: Dict)
    requires forall k :: k in {"DB_HOST", "DB_NAME", "DB_USER", "DB_PASS", "DB_CHARSET"} ==> !HasKey(env0, StrKey(k))
    ensures DbSettings(env0) == DbConfig(Str("localhost"), Str("bugsydb"), Str("root"), Str(""), Str("utf8mb4"))
  {
    assert !HasKey(env0, StrKey("DB_HOST"));
    assert !HasKey(env0, StrKey("DB_NAME"));
    assert !HasKey(env0, StrKey("DB_USER"));
    assert !HasKey(env0, StrKey("DB_PASS"));
    assert !HasKey(env0, StrKey("DB_CHARSET"));
  }

  /** APP_NAME, APP_ENV and APP_URL. */
  datatype AppConfig = AppConfig(name: Value, env: Value, url: Value)

  /** The APP_URL default, which the product image URLs are built on. */
  const DefaultAppUrl := "http://localhost/Bugsy"

  /** The APP_* constants: the environment's value when set, else Bugsy, development and the local URL. */
  function AppSettings(env: Dict): (c: AppConfig)
    ensures Isset(env, StrKey("APP_NAME")) ==> c.name == Lookup(env, StrKey("APP_NAME")).value
    ensures !Isset(env, StrKey("APP_NAME")) ==> c.name == Str("Bugsy")
    ensures Isset(env, StrKey("APP_ENV")) ==> c.env == Lookup(env, StrKey("APP_ENV")).value
    ensures !Isset(env, StrKey("APP_ENV")) ==> c.env == Str("development")
    ensures Isset(env, StrKey("APP_URL")) ==> c.url == Lookup(env, StrKey("APP_URL")).value
    ensures !Isset(env, StrKey("APP_URL")) ==> c.url == Str(DefaultAppUrl)
  {
    AppConfig(Coalesce(env, StrKey("APP_NAME"), Str("Bugsy")),
              Coalesce(env, StrKey("APP_ENV"), Str("development")),
              Coalesce(env, StrKey("APP_URL"), Str(DefaultAppUrl)))
  }

  // ---------------------------------------------------------------
  // CORS (the Access-Control-Allow-Origin header of the Fetch Standard, section 3.2)
  // ---------------------------------------------------------------

  const DevOrigins: seq<string> := [
    "http://localhost", "http://localhost:3000", "http://localhost:5173", "http://localhost:5500",
    "http://localhost:8080", "http://127.0.0.1", "http://127.0.0.1:3000", "http://127.0.0.1:5173",
    "http://127.0.0.1:5500"]

  const ProdOrigins: seq<string> := [
    "https://yourdomain.com", "https://www.yourdomain.com", "https://app.yourdomain.com",
    "http://localhost:3000", "http://localhost:5173", "http://127.0.0.1:3000"]

  const LocalhostPrefix := "http://localhost"
  const LoopbackPrefix := "http://127.0.0.1"

  /**
   * The origin test: in development a listed origin or any origin that
   * starts with the localhost or loopback prefix; otherwise only a
   * listed production origin.
   */
  predicate OriginAllowed(appEnv: Value, origin: string)
  {
    if appEnv == Str("development") then
      origin in DevOrigins || StartsWith(origin, LocalhostPrefix) || StartsWith(origin, LoopbackPrefix)
    else origin in ProdOrigins
  }

  /** The Access-Control-Allow-Origin value sent: the origin verbatim when allowed; a missing origin is ''. */
  function AllowOrigin(appEnv: Value, origin: Option<string>): (h: Option<string>)
    ensures h.Some? ==> origin.Some? && h.value == origin.value
    ensures h.Some? <==> OriginAllowed(appEnv, if origin.Some? then origin.value else "")
  {
    var o := if origin.Some? then origin.value else "";
    if OriginAllowed(appEnv, o) then Some(o) else None
  }

  /** A request without an Origin header is never given the header. */
  lemma MissingOriginRefused(appEnv: Value)
    ensures AllowOrigin(appEnv, None).None?
  {
    assert forall o :: o in DevOrigins ==> |o| > 0;
    assert forall o :: o in ProdOrigins ==> |o| > 0;
  }

  /** In development the test is a prefix test: any host name that merely begins like localhost passes. */
  lemma DevPrefixPasses(rest: string)
    ensures OriginAllowed(Str("development"), LocalhostPrefix + rest)
    ensures OriginAllowed(Str("development"), LoopbackPrefix + rest)
  {
    assert (LocalhostPrefix + rest)[..|LocalhostPrefix|] == LocalhostPrefix;
    assert (LoopbackPrefix + rest)[..|LoopbackPrefix|] == LoopbackPrefix;
  }

  /** So the development list adds nothing: the two prefixes alone decide. */
  lemma DevListRedundant(origin: string)
    ensures OriginAllowed(Str("development"), origin) <==>
      StartsWith(origin, LocalhostPrefix) || StartsWith(origin, LoopbackPrefix)
  {
    if origin in DevOrigins {
      var i :| 0 <= i < |DevOrigins| && DevOrigins[i] == origin;
      if i < 5 {
        assert DevOrigins[i][..16] == LocalhostPrefix;
      } else {
        assert DevOrigins[i][..16] == LoopbackPrefix;
      }
    }
  }

  /** Outside development only the listed origins pass: the plain localhost origin is refused there. */
  lemma ProductionExact(appEnv: Value, origin: string)
    requires appEnv != Str("development")
    ensures OriginAllowed(appEnv, origin) <==> origin in ProdOrigins
    ensures !OriginAllowed(appEnv, LocalhostPrefix)
  {
    assert forall o :: o in ProdOrigins ==> |o| != |LocalhostPrefix|;
  }

  /** With APP_ENV unset the permissive development policy applies. */
  lemma DefaultEnvPermissive(env: Dict, rest: string)
    requires !HasKey(env, StrKey("APP_ENV"))
    ensures AllowOrigin(AppSettings(env).env, Some(LocalhostPrefix + rest)) == Some(LocalhostPrefix + rest)
  {
    DevPrefixPasses(rest);
  }

  /** The origin value App::setCorsHeaders (app/Core/App.php:429-432) sends at the start of run. */
  const AppAllowOrigin := "*"

  /**
   * The Access-Control-Allow-Origin the client receives. header() replaces
   * an earlier header of the same name, so every request that reaches
   * App::run carries '*', whatever config.php chose; only a preflight,
   * which ends in config.php, keeps config.php's choice.
   */
  function SentAllowOrigin(appEnv: Value, origin: Option<string>, reqMethod: string): (h: Option<string>)
    ensures reqMethod == "OPTIONS" ==> h == AllowOrigin(appEnv, origin)
    ensures reqMethod != "OPTIONS" ==> h == Some(AppAllowOrigin)
  {
    if reqMethod == "OPTIONS" then AllowOrigin(appEnv, origin) else Some(AppAllowOrigin)
  }

  /** So the origin policy only governs preflights: an origin it refuses, or none at all, is still shared with on every other request. */
  lemma PolicyOverridden(appEnv: Value, origin: Option<string>, reqMethod: string)
    requires reqMethod != "OPTIONS"
    requires AllowOrigin(appEnv, origin).None?
    ensures SentAllowOrigin(appEnv, origin, reqMethod).Some? && SentAllowOrigin(appEnv, origin, reqMethod) != AllowOrigin(appEnv, origin)
  {
  }

  // ---------------------------------------------------------------
  // The OPTIONS short-circuit
  // ---------------------------------------------------------------

  /** How a request through index.php ends: config answers a preflight with 200 itself, everything else reaches the App. */
  datatype Served = PreflightAnswered | Ran(outcome: Application.Outcome)

  /** config.php runs before the App exists: an OPTIONS request ends there with status 200. */
  function Serve(routes: Dict, reqMethod: string, query: Dict, input: string,
                 decode: string -> Option<Value>, formDecode: string -> Dict,
                 loadable: Application.Loadable): (s: Served)
    ensures s.PreflightAnswered? <==> reqMethod == "OPTIONS"
    ensures s.Ran? ==> !s.outcome.Preflight?
  {
    if reqMethod == "OPTIONS" then PreflightAnswered
    else Ran(Application.Respond(routes, reqMethod, query, input, decode, formDecode, loadable))
  }

  // ---------------------------------------------------------------
  // The autoloader
  // ---------------------------------------------------------------

  /** str_replace('\\', '/', c). */
  function Slashes(c: string): (r: string)
    ensures |r| == |c| && '\\' !in r
    ensures forall i :: 0 <= i < |c| ==> r[i] == if c[i] == '\\' then '/' else c[i]
  {
    seq(|c|, i requires 0 <= i < |c| => if c[i] == '\\' then '/' else c[i])
  }

  /** A namespace separator becomes a directory separator. */
  lemma SlashesAround(a: string, b: string)
    ensures Slashes(a + "\\" + b) == Slashes(a) + "/" + Slashes(b)
  {
  }

  /** The files tried for a class, in order: below APP, below APP/Controllers, below APP/Models. */
  function Candidates(app: string, cls: string): (paths: seq<string>)
    ensures |paths| == 3
  {
    var c := Slashes(cls);
    [app + "/" + c + ".php", app + "/Controllers/" + c + ".php", app + "/Models/" + c + ".php"]
  }

  /** The first path that exists, if any. */
  function FirstExisting(paths: seq<string>, existing: set<string>): (r: Option<string>)
    ensures r.None? <==> forall i :: 0 <= i < |paths| ==> paths[i] !in existing
    ensures r.Some? ==> exists i :: (0 <= i < |paths| && paths[i] == r.value && r.value in existing &&
                                     forall j :: 0 <= j < i ==> paths[j] !in existing)
    decreases |paths|
  {
    if paths == [] then None
    else if paths[0] in existing then
      assert 0 < |paths| && paths[0] == paths[0];
      Some(paths[0])
    else
      var r := FirstExisting(paths[1..], existing);
      assert forall i :: 1 <= i < |paths| ==> paths[i] == paths[1..][i - 1];
      if r.Some? then
        var i :| 0 <= i < |paths[1..]| && paths[1..][i] == r.value && r.value in existing &&
          forall j :: 0 <= j < i ==> paths[1..][j] !in existing;
        assert paths[i + 1] == r.value;
        r
      else r
  }

  /** The autoloader: the first candidate file that exists is loaded, and no further one is tried. */
  method Autoload(app: string, cls: string, existing: set<string>) returns (loaded: Option<string>)
    ensures loaded == FirstExisting(Candidates(app, cls), existing)
  {
    var c := Slashes(cls);
    var paths := [app + "/" + c + ".php", app + "/Controllers/" + c + ".php", app + "/Models/" + c + ".php"];
    var i := 0;
    while i < |paths|
      invariant 0 <= i <= |paths|
      invariant FirstExisting(paths, existing) == FirstExisting(paths[i..], existing)
    {
      if paths[i] in existing {
        return Some(paths[i]);
      }
      assert paths[i..][1..] == paths[i + 1..];
      i := i + 1;
    }
    return None;
  }
}
