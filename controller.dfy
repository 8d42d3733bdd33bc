// BaseController of app/Controllers/BaseController.php: the request data
// the router hands over and the getters over it, validation, sanitizing,
// the session check behind requireAuth, the admin and ownership
// decisions, and the pagination parameters. A response that ends the
// request is a Halt carrying the reply Response would send.
module Controllers {
  import opened Wrappers
  import opened Strings
  import opened Php
  import opened Numbers
  import opened Responses
  import Models

  /** How a step that may end the request goes on: with its value, or with the reply that ended it. */
  datatype Flow<T> = Continue(value: T) | Halt(reply: Reply)

  /** The pagination parameters, 'page', 'perPage' and 'offset'. */
  datatype Pagination = Pagination(page: int, perPage: int, offset: int)

  /** The request data before the router's arrives: empty sections and empty method and version. */
  const DefaultRequestData: Dict := [
    Entry(StrKey("params"), Arr([])),
    Entry(StrKey("query"), Arr([])),
    Entry(StrKey("body"), Arr([])),
    Entry(StrKey("method"), Str("")),
    Entry(StrKey("version"), Str(""))]

  /** A section of the request data; a section that is not an array reads as an empty one. */
  function Section(data: Dict, name: string): Dict
  {
    match Lookup(data, StrKey(name))
    case Some(Arr(d)) => d
    case _ => []
  }

  /** `$data[$name]`, null when absent. */
  function Field(data: Dict, name: string): Value
  {
    match Lookup(data, StrKey(name))
    case Some(v) => v
    case None => Null
  }

  /** `$user[$name]` for a user array; null for no user. */
  function UserField(user: Value, name: string): Value
  {
    if user.Arr? then Field(user.entries, name) else Null
  }

  /** setRequestData's array_merge: a key the router supplies replaces the default, any other key keeps it. */
  lemma RequestDataMerge(data: Dict, s: string)
    requires UniqueKeys(data)
    ensures Lookup(Merge(DefaultRequestData, data), StrKey(s)) ==
      if HasKey(data, StrKey(s)) then Lookup(data, StrKey(s)) else Lookup(DefaultRequestData, StrKey(s))
  {
    assert UniqueKeys(DefaultRequestData);
    MergeStringKey(DefaultRequestData, data, s);
  }

  /** BaseController::error: its errors default to an empty array, so a controller error always carries 'errors'. */
  function ControllerError(message: string, status: int, errors: Dict): (r: Reply)
    ensures r.status == status && r.body.Arr?
    ensures Lookup(r.body.entries, StrKey("success")) == Some(Bool(false))
    ensures Lookup(r.body.entries, StrKey("message")) == Some(Str(message))
    ensures Lookup(r.body.entries, StrKey("errors")) == Some(Arr(errors))
  {
    Error(Str(message), status, Arr(errors))
  }

  // ---------------------------------------------------------------
  // validate
  // ---------------------------------------------------------------

  /** The message validate stores for a missing field, as written: no space after the field name. */
  function RequiredMessageAsWritten(field: Key): string
  {
    Ucfirst(KeyString(field)) + "is required"
  }

  /** The field name runs into the message: the character after it is the 'i' of "is", never a space ("Nameis required"). */
  lemma RequiredMessageGlued(field: Key)
    ensures RequiredMessageAsWritten(field)[|KeyString(field)|] == 'i'
    ensures RequiredMessageAsWritten(field)[|KeyString(field)|] != ' '
  {
    var name := Ucfirst(KeyString(field));
    assert (name + "is required")[|name|] == "is required"[0];
  }

  /** The message for a missing field: the field name capitalised, a space, then "is required". */
  function RequiredMessage(field: Key): (m: string)
    ensures |m| == |KeyString(field)| + 12
    ensures m[..|KeyString(field)|] == Ucfirst(KeyString(field))
    ensures m[|KeyString(field)|] == ' '
    ensures m[|KeyString(field)| + 1..] == "is required"
  {
    var name := Ucfirst(KeyString(field));
    var m := name + " is required";
    assert m[..|name|] == name;
    assert m[|name|] == " is required"[0];
    assert m[|name| + 1..] == " is required"[1..];
    m
  }

  /** The errors validate collects: a field of the rules that is unset or empty gets its message, in rule order. */
  function FieldErrors(input: Dict, rules: Dict): Dict
    decreases |rules|
  {
    if rules == [] then []
    else
      var errors := FieldErrors(input, rules[..|rules| - 1]);
      var field := rules[|rules| - 1].key;
      if EmptyAt(input, field) then Put(errors, field, Str(RequiredMessageAsWritten(field))) else errors
  }

  /**
   * A field has an error exactly when it has a rule and is unset or
   * empty in the input; the error is the message as the source builds it.
   */
  lemma {:induction false} FieldErrorsLookup(input: Dict, rules: Dict, k: Key)
    ensures Lookup(FieldErrors(input, rules), k) ==
      if HasKey(rules, k) && EmptyAt(input, k) then Some(Str(RequiredMessageAsWritten(k))) else None
    decreases |rules|
  {
    if rules != [] {
      var init := rules[..|rules| - 1];
      var e := rules[|rules| - 1];
      assert rules == init + [e];
      IndexOfKeyAppend(init, e, k);
      FieldErrorsLookup(input, init, k);
    }
  }

  /** No errors exactly when every field of the rules is set and non-empty. */
  lemma FieldErrorsNone(input: Dict, rules: Dict)
    ensures FieldErrors(input, rules) == [] <==> forall i :: 0 <= i < |rules| ==> !EmptyAt(input, rules[i].key)
  {
    var errors := FieldErrors(input, rules);
    if errors == [] {
      forall i | 0 <= i < |rules| ensures !EmptyAt(input, rules[i].key) {
        IndexOfKeyFirst(rules, rules[i].key);
        FieldErrorsLookup(input, rules, rules[i].key);
      }
    } else {
      FieldErrorsLookup(input, rules, errors[0].key);
      assert Lookup(errors, errors[0].key).Some?;
      var i := IndexOfKey(rules, errors[0].key);
      assert EmptyAt(input, rules[i].key);
    }
  }

  /** validate's outcome: 422 with the collected errors, or true when every field passes. */
  function ValidateOutcome(input: Dict, rules: Dict): (r: Flow<bool>)
    ensures r.Continue? <==> forall i :: 0 <= i < |rules| ==> !EmptyAt(input, rules[i].key)
    ensures r.Continue? ==> r.value
    ensures r.Halt? ==> r.reply == ControllerError("Validation failed", 422, FieldErrors(input, rules))
  {
    FieldErrorsNone(input, rules);
    var errors := FieldErrors(input, rules);
    if errors != [] then Halt(ControllerError("Validation failed", 422, errors)) else Continue(true)
  }

  // ---------------------------------------------------------------
  // sanitize
  // ---------------------------------------------------------------

  /** sanitize: strings trimmed, arrays mapped entry by entry keeping their keys, other values unchanged. */
  function Sanitize(v: Value): (r: Value)
    ensures v.Str? ==> r == Str(TrimWs(v.s))
    ensures v.Arr? ==> (r.Arr? && |r.entries| == |v.entries| &&
                        forall i :: 0 <= i < |v.entries| ==>
                          r.entries[i].key == v.entries[i].key && r.entries[i].val == Sanitize(v.entries[i].val))
    ensures !v.Str? && !v.Arr? ==> r == v
    decreases v
  {
    match v
    case Str(s) => Str(TrimWs(s))
    case Arr(es) => Arr(seq(|es|, i requires 0 <= i < |es| => Entry(es[i].key, Sanitize(es[i].val))))
    case _ => v
  }

  /** No string anywhere in the value starts or ends with whitespace. */
  predicate Clean(v: Value)
    decreases v
  {
    match v
    case Str(s) => s == [] || (s[0] !in Whitespace && s[|s| - 1] !in Whitespace)
    case Arr(es) => forall i :: 0 <= i < |es| ==> Clean(es[i].val)
    case _ => true
  }

  /** What sanitize returns is clean. */
  lemma {:induction false} SanitizeClean(v: Value)
    ensures Clean(Sanitize(v))
    decreases v
  {
    match v
    case Str(s) =>
    case Arr(es) =>
      forall i | 0 <= i < |es| ensures Clean(Sanitize(v).entries[i].val) {
        SanitizeClean(es[i].val);
      }
    case _ =>
  }

  /** sanitize is idempotent. */
  lemma {:induction false} SanitizeIdempotent(v: Value)
    ensures Sanitize(Sanitize(v)) == Sanitize(v)
    decreases v
  {
    match v
    case Str(s) => TrimIdempotent(s, Whitespace);
    case Arr(es) =>
      var r := Sanitize(v).entries;
      forall i | 0 <= i < |es| ensures Sanitize(r[i].val) == r[i].val {
        SanitizeIdempotent(es[i].val);
      }
      assert Sanitize(Sanitize(v)).entries == r;
    case _ =>
  }

  // ---------------------------------------------------------------
  // Loose comparison, as checkOwnership's != uses it
  // ---------------------------------------------------------------

  /** An integer id equals a decimal id text, from either side, exactly when the text is that id's. */
  lemma IdMatchesRowText(n: int, m: int)
    ensures LooseEquals(Int(n), Str(IntToString(m))) <==> n == m
    ensures LooseEquals(Str(IntToString(m)), Int(n)) <==> n == m
  {
    ReadIntText(m);
  }

  /** Two decimal id texts are loosely equal exactly when the ids are equal. */
  lemma IdTextsMatch(n: int, m: int)
    ensures LooseEquals(Str(IntToString(n)), Str(IntToString(m))) <==> n == m
  {
    ReadIntText(n);
    ReadIntText(m);
  }

  /**
   * Cases where PHP 7's comparison is not equality of texts: "5" differs
   * from "5 " (a trailing space makes a string non-numeric), while 5
   * equals "5abc" and 0 equals "admin" (an integer is compared with the
   * string's leading number).
   */
  lemma LooseTextCases()
    ensures !LooseEquals(Str("5"), Str("5 "))
    ensures LooseEquals(Int(5), Str("5abc"))
    ensures LooseEquals(Int(0), Str("admin"))
  {
    SpaceAroundNumber();
    LetterFirstText("admin");
  }

  // ---------------------------------------------------------------
  // The session
  // ---------------------------------------------------------------

  /** isLoggedIn: the session's logged_in is exactly true. */
  predicate LoggedIn(session: Dict)
  {
    Isset(session, StrKey("logged_in")) && Lookup(session, StrKey("logged_in")).value == Bool(true)
  }

  /** getUserFromSession for a logged-in session: id, email and name or null, role or 'customer'. */
  function SessionUser(session: Dict): (u: Value)
    ensures u.Arr? && Truthy(u)
    ensures UserField(u, "id") == Coalesce(session, StrKey("user_id"), Null)
    ensures UserField(u, "email") == Coalesce(session, StrKey("user_email"), Null)
    ensures UserField(u, "name") == Coalesce(session, StrKey("user_name"), Null)
    ensures UserField(u, "role") == if Isset(session, StrKey("user_role"))
      then Lookup(session, StrKey("user_role")).value else Str("customer")
  {
    var d := [Entry(StrKey("id"), Coalesce(session, StrKey("user_id"), Null)),
         Entry(StrKey("email"), Coalesce(session, StrKey("user_email"), Null)),
         Entry(StrKey("name"), Coalesce(session, StrKey("user_name"), Null)),
         Entry(StrKey("role"), Coalesce(session, StrKey("user_role"), Str("customer")))];
    LookupFirst(d, 0);
    LookupFirst(d, 1);
    LookupFirst(d, 2);
    LookupFirst(d, 3);
    Arr([Entry(StrKey("id"), Coalesce(session, StrKey("user_id"), Null)),
         Entry(StrKey("email"), Coalesce(session, StrKey("user_email"), Null)),
         Entry(StrKey("name"), Coalesce(session, StrKey("user_name"), Null)),
         Entry(StrKey("role"), Coalesce(session, StrKey("user_role"), Str("customer")))])
  }

  /**
   * requireAuth's decision: any version other than v1 ends with 501; v1
   * needs logged_in === true, else 401; a logged-in session yields the
   * session user.
   */
  function Authenticate(version: Value, session: Dict): (r: Flow<Value>)
    ensures r.Continue? <==> version == Str("v1") && Lookup(session, StrKey("logged_in")) == Some(Bool(true))
    ensures r.Continue? ==> r.value == SessionUser(session)
    ensures version != Str("v1") ==> r == Halt(ControllerError("V2/V3 authentication not implemented yet", 501, []))
    ensures version == Str("v1") && r.Halt? ==> r == Halt(ControllerError("Authentication required. Please login.", 401, []))
  {
    if version != Str("v1") then Halt(ControllerError("V2/V3 authentication not implemented yet", 501, []))
    else if !LoggedIn(session) then Halt(ControllerError("Authentication required. Please login.", 401, []))
    else Continue(SessionUser(session))
  }

  /** The role of the session user is not admin unless the session's user_role is the string admin. */
  lemma SessionRoleDefault(session: Dict)
    ensures UserField(SessionUser(session), "role") == Str("admin") <==>
      Lookup(session, StrKey("user_role")) == Some(Str("admin"))
  {
  }

  /** The request-scoped controller state: the request data and the authenticated user. */
  class BaseController {
    var requestData: Dict
    var user: Value

    /** The user is null or an array. */
    predicate Valid()
      reads this
    {
      user == Null || user.Arr?
    }

    constructor ()
      ensures Valid()
      ensures requestData == DefaultRequestData && user == Null
    {
      requestData := DefaultRequestData;
      user := Null;
    }

    /** setRequestData: the router's keys merged over the current ones. */
    method SetRequestData(data: Dict)
      modifies this
      ensures requestData == Merge(old(requestData), data) && user == old(user)
    {
      requestData := Merge(requestData, data);
    }

    /** getInput: the body's value, or the default when it is absent or null. */
    function GetInput(key: Key, default: Value): (r: Value)
      reads this
      ensures Isset(Section(requestData, "body"), key) ==> r == Lookup(Section(requestData, "body"), key).value
      ensures !Isset(Section(requestData, "body"), key) ==> r == default
    {
      Coalesce(Section(requestData, "body"), key, default)
    }

    /** getAllInput: the whole body. */
    function GetAllInput(): (r: Dict)
      reads this
      ensures Lookup(requestData, StrKey("body")) == Some(Arr(r)) || r == []
    {
      Section(requestData, "body")
    }

    /** hasInput: getInput with a null default gives something other than null; a null value counts as absent. */
    function HasInput(key: Key): (b: bool)
      reads this
      ensures b <==> GetInput(key, Null) != Null
      ensures Lookup(GetAllInput(), key) == Some(Null) ==> !b
    {
      Isset(Section(requestData, "body"), key)
    }

    /** getQuery: with no key the whole query, else its value or the default when absent or null. */
    function GetQuery(key: Option<Key>, default: Value): (r: Value)
      reads this
      ensures key.None? ==> r == Arr(Section(requestData, "query"))
      ensures key.Some? && Isset(Section(requestData, "query"), key.value) ==>
        r == Lookup(Section(requestData, "query"), key.value).value
      ensures key.Some? && !Isset(Section(requestData, "query"), key.value) ==> r == default
    {
      if key.None? then Arr(Section(requestData, "query"))
      else Coalesce(Section(requestData, "query"), key.value, default)
    }

    /** hasQuery: getQuery with a null default gives something other than null. */
    function HasQuery(key: Key): (b: bool)
      reads this
      ensures b <==> GetQuery(Some(key), Null) != Null
      ensures Lookup(Section(requestData, "query"), key) == Some(Null) ==> !b
    {
      Isset(Section(requestData, "query"), key)
    }

    /** getParam: the route parameter, or the default when absent or null. */
    function GetParam(key: Key, default: Value): (r: Value)
      reads this
      ensures Isset(Section(requestData, "params"), key) ==> r == Lookup(Section(requestData, "params"), key).value
      ensures !Isset(Section(requestData, "params"), key) ==> r == default
    {
      Coalesce(Section(requestData, "params"), key, default)
    }

    /** getMethod. */
    function GetMethod(): (r: Value)
      reads this
      ensures HasKey(requestData, StrKey("method")) ==> Lookup(requestData, StrKey("method")) == Some(r)
    {
      Field(requestData, "method")
    }

    /** getVersion. */
    function GetVersion(): (r: Value)
      reads this
      ensures HasKey(requestData, StrKey("version")) ==> Lookup(requestData, StrKey("version")) == Some(r)
    {
      Field(requestData, "version")
    }

    /** validate over the body: the errors are collected field by field in rule order. */
    method Validate(rules: Dict) returns (r: Flow<bool>)
      ensures r == ValidateOutcome(GetAllInput(), rules)
    {
      var input := GetAllInput();
      var errors: Dict := [];
      var i := 0;
      while i < |rules|
        invariant 0 <= i <= |rules|
        invariant errors == FieldErrors(input, rules[..i])
      {
        var field := rules[i].key;
        assert rules[..i + 1][..i] == rules[..i];
        if !Isset(input, field) || !Truthy(Lookup(input, field).value) {
          errors := Put(errors, field, Str(Ucfirst(KeyString(field)) + "is required"));
        }
        i := i + 1;
      }
      assert rules[..|rules|] == rules;
      if errors != [] {
        return Halt(ControllerError("Validation failed", 422, errors));
      }
      return Continue(true);
    }

    /** requireAuth: on success the session user is loaded; a halt leaves the user as it was. */
    method RequireAuth(session: Dict) returns (r: Flow<bool>)
      modifies this
      ensures requestData == old(requestData)
      ensures r.Continue? <==> Authenticate(old(GetVersion()), session).Continue?
      ensures r.Continue? ==> r.value && user == Authenticate(old(GetVersion()), session).value
      ensures r.Halt? ==> r.reply == Authenticate(old(GetVersion()), session).reply && user == old(user)
    {
      var a := Authenticate(GetVersion(), session);
      if a.Halt? {
        return Halt(a.reply);
      }
      user := a.value;
      return Continue(true);
    }

    /** isAdmin: a user whose role is exactly the string admin. */
    function IsAdmin(): (b: bool)
      reads this
      ensures b <==> Truthy(user) && UserField(user, "role") == Str("admin")
    {
      if !Truthy(user) then false else UserField(user, "role") == Str("admin")
    }

    /**
     * requireAdmin: requireAuth, whose 401 or 501 ends the request with
     * the user as it was; an authenticated user is loaded and, unless an
     * admin, refused with 403.
     */
    method RequireAdmin(session: Dict) returns (r: Flow<bool>)
      modifies this
      ensures requestData == old(requestData)
      ensures r.Continue? <==> (Authenticate(old(GetVersion()), session).Continue? &&
                                UserField(SessionUser(session), "role") == Str("admin"))
      ensures r.Continue? ==> r.value
      ensures Authenticate(old(GetVersion()), session).Halt? ==>
        r == Halt(Authenticate(old(GetVersion()), session).reply) && user == old(user)
      ensures Authenticate(old(GetVersion()), session).Continue? ==>
        user == Authenticate(old(GetVersion()), session).value &&
        (r.Halt? ==> r.reply == ControllerError("Admin access required. You do not have permission.", 403, []))
    {
      r := RequireAuth(session);
      if r.Halt? {
        return;
      }
      if !IsAdmin() {
        return Halt(ControllerError("Admin access required. You do not have permission.", 403, []));
      }
      return Continue(true);
    }

    /** getUserId: the user's id, or null without a user. */
    function GetUserId(): (r: Value)
      reads this
      ensures !Truthy(user) ==> r == Null
      ensures user.Arr? && Truthy(user) ==> r == Field(user.entries, "id")
    {
      if !Truthy(user) then Null else UserField(user, "id")
    }

    /**
     * checkOwnership: 401 without a user, an admin passes for any
     * resource, anyone else passes only when their id loosely equals the
     * resource's user id, otherwise 403 with the given message.
     */
    function CheckOwnership(resourceUserId: Value, errorMessage: string): (r: Flow<bool>)
      reads this
      ensures r.Continue? ==> r.value
      ensures !Truthy(user) ==> r == Halt(ControllerError("Authentication required", 401, []))
      ensures IsAdmin() ==> r == Continue(true)
      ensures Truthy(user) && !IsAdmin() ==>
        r == if LooseEquals(UserField(user, "id"), resourceUserId) then Continue(true)
             else Halt(ControllerError(errorMessage, 403, []))
    {
      if !Truthy(user) then Halt(ControllerError("Authentication required", 401, []))
      else if IsAdmin() then Continue(true)
      else if !LooseEquals(UserField(user, "id"), resourceUserId) then Halt(ControllerError(errorMessage, 403, []))
      else Continue(true)
    }

    /**
     * getPagination: page at least 1, perPage clamped to 1..100, offset
     * the start of that page, which paginate maps back to the same page.
     */
    function GetPagination(defaultPerPage: int := 20): (p: Pagination)
      reads this
      ensures p.page >= 1 && 1 <= p.perPage <= 100
      ensures p.offset == (p.page - 1) * p.perPage && p.offset >= 0
      ensures Models.PageOf(p.offset, p.perPage) == p.page
      ensures p.page == (var q := ToInt(GetQuery(Some(StrKey("page")), Int(1))); if q > 1 then q else 1)
      ensures p.perPage ==
        (var q := ToInt(GetQuery(Some(StrKey("per_page")), Int(defaultPerPage)));
         if q < 1 then 1 else if q > 100 then 100 else q)
    {
      var requestedPage := ToInt(GetQuery(Some(StrKey("page")), Int(1)));
      var requestedPerPage := ToInt(GetQuery(Some(StrKey("per_page")), Int(defaultPerPage)));
      var page := if requestedPage > 1 then requestedPage else 1;
      var capped := if requestedPerPage < 100 then requestedPerPage else 100;
      var perPage := if capped > 1 then capped else 1;
      Models.PageOfOffset(page, perPage);
      assert (page - 1) * perPage >= 0;
      Pagination(page, perPage, (page - 1) * perPage)
    }
  }

  /** A customer reaches a row of their own: the session's integer id against the row's decimal user_id. */
  lemma OwnerReachesOwnRow(c: BaseController, n: int, message: string)
    requires c.user.Arr? && Truthy(c.user) && UserField(c.user, "id") == Int(n)
    ensures c.CheckOwnership(Str(IntToString(n)), message) == Continue(true)
  {
    IdMatchesRowText(n, n);
  }

  /** A customer is refused another user's row with 403. */
  lemma OtherUsersRowRefused(c: BaseController, n: int, m: int, message: string)
    requires c.user.Arr? && Truthy(c.user) && UserField(c.user, "id") == Int(n) && !c.IsAdmin()
    requires m != n
    ensures c.CheckOwnership(Str(IntToString(m)), message) == Halt(ControllerError(message, 403, []))
  {
    IdMatchesRowText(n, m);
  }
}
