// Response of app/Helpers/Response.php: the JSON envelopes of success and
// error replies and the status code each helper answers with. Emitting
// the body and ending the request are represented by the Reply value the
// helper produces; nothing runs after it.
module Responses {
  import opened Wrappers
  import opened Php

  /** What a helper sends before it ends the request: the status code and the value given to json_encode. */
  datatype Reply = Reply(status: int, body: Value)

  /** The default messages of the status helpers. */
  const NotFoundMessage := "Resource not found"
  const UnauthorizedMessage := "Unauthorized"
  const ForbiddenMessage := "Forbidden"
  const ServerErrorMessage := "Internal Server Error"

  /** success's envelope before the data: success:true, then the message unless it is null. */
  function SuccessHead(message: Value): (d: Dict)
    ensures UniqueKeys(d) && forall i :: 0 <= i < |d| ==> d[i].key.StrKey?
    ensures Lookup(d, StrKey("success")) == Some(Bool(true))
    ensures HasKey(d, StrKey("message")) <==> message != Null
    ensures message != Null ==> Lookup(d, StrKey("message")) == Some(message)
    ensures forall s :: s != "success" && s != "message" ==> !HasKey(d, StrKey(s))
  {
    var start := [Entry(StrKey("success"), Bool(true))];
    if message != Null then
      PutNew(start, Entry(StrKey("message"), message));
      Put(start, StrKey("message"), message)
    else start
  }

  /**
   * success's envelope: array data is merged flat with array_merge (its
   * string keys override success and message, its integer keys are
   * renumbered), other data goes under 'data'.
   */
  function SuccessBody(data: Value, message: Value): (d: Dict)
    ensures !data.Arr? ==> d == SuccessHead(message) + [Entry(StrKey("data"), data)]
  {
    var head := SuccessHead(message);
    if data.Arr? then Merge(head, data.entries)
    else
      PutNew(head, Entry(StrKey("data"), data));
      Put(head, StrKey("data"), data)
  }

  /** Array data is merged flat: a string key of the data wins over the envelope's, the envelope's keys stay otherwise. */
  lemma SuccessFlat(entries: Dict, message: Value, s: string)
    requires UniqueKeys(entries)
    ensures Lookup(SuccessBody(Arr(entries), message), StrKey(s)) ==
      if HasKey(entries, StrKey(s)) then Lookup(entries, StrKey(s))
      else if s == "success" then Some(Bool(true))
      else if s == "message" && message != Null then Some(message)
      else None
  {
    MergeStringKey(SuccessHead(message), entries, s);
  }

  /** Non-array data sits under 'data' beside success and the message. */
  lemma SuccessWrapped(data: Value, message: Value, s: string)
    requires !data.Arr?
    ensures Lookup(SuccessBody(data, message), StrKey(s)) ==
      if s == "data" then Some(data)
      else if s == "success" then Some(Bool(true))
      else if s == "message" && message != Null then Some(message)
      else None
  {
    var head := SuccessHead(message);
    LookupAppend(head, [Entry(StrKey("data"), data)], StrKey(s));
  }

  /** The entries of a list renumbered from n. */
  function Renumbered(items: seq<Entry>, n: int): (es: seq<Entry>)
    ensures |es| == |items|
    ensures forall i :: 0 <= i < |items| ==> es[i] == Entry(IntKey(n + i), items[i].val)
  {
    seq(|items|, i requires 0 <= i < |items| => Entry(IntKey(n + i), items[i].val))
  }

  /** array_merge's loop over integer keys appends the values renumbered from n. */
  lemma {:induction false} MergeIntoIntKeys(acc: Dict, n: int, es: seq<Entry>)
    requires forall i :: 0 <= i < |acc| ==> acc[i].key.StrKey? || acc[i].key.n < n
    requires forall i :: 0 <= i < |es| ==> es[i].key.IntKey?
    ensures MergeInto(acc, n, es) == acc + Renumbered(es, n)
    decreases |es|
  {
    if es == [] {
      assert acc + Renumbered(es, n) == acc;
    } else {
      var e := Entry(IntKey(n), es[0].val);
      assert MergeInto(acc, n, es) == MergeInto(Put(acc, IntKey(n), es[0].val), n + 1, es[1..]);
      PutNew(acc, e);
      var acc' := acc + [e];
      assert forall i :: 0 <= i < |acc'| ==> acc'[i].key.StrKey? || acc'[i].key.n < n + 1;
      assert forall i :: 0 <= i < |es| - 1 ==> es[1..][i] == es[i + 1];
      MergeIntoIntKeys(acc', n + 1, es[1..]);
      RenumberedCons(es, n);
      var rest := Renumbered(es[1..], n + 1);
      ConcatAssoc(acc, [e], rest);
      assert MergeInto(acc, n, es) == acc' + rest;
    }
  }

  lemma ConcatAssoc(a: Dict, b: Dict, c: Dict)
    ensures (a + b) + c == a + (b + c)
  {
  }

  lemma RenumberedCons(es: seq<Entry>, n: int)
    requires es != []
    ensures Renumbered(es, n) == [Entry(IntKey(n), es[0].val)] + Renumbered(es[1..], n + 1)
  {
  }

  /** A list of rows passed to success lands after the envelope under keys 0, 1, 2, ... rather than under 'data'. */
  lemma SuccessList(items: seq<Value>, message: Value)
    ensures SuccessBody(Arr(ListOf(items)), message) ==
      SuccessHead(message) + Renumbered(ListOf(items), 0)
  {
    MergeIntoSplit(SuccessHead(message), ListOf(items));
  }

  /** array_merge over a string-keyed head and a list: the head unchanged, then the list renumbered. */
  lemma MergeIntoSplit(head: Dict, es: seq<Entry>)
    requires UniqueKeys(head) && forall i :: 0 <= i < |head| ==> head[i].key.StrKey?
    requires forall i :: 0 <= i < |es| ==> es[i].key.IntKey?
    ensures Merge(head, es) == head + Renumbered(es, 0)
  {
    MergeIntoStringHead([], head, es);
    assert [] + head == head;
    MergeIntoIntKeys(head, 0, es);
  }

  /** array_merge copies a string-keyed prefix with distinct keys entry by entry. */
  lemma {:induction false} MergeIntoStringHead(acc: Dict, head: Dict, es: seq<Entry>)
    requires UniqueKeys(acc + head)
    requires forall i :: 0 <= i < |head| ==> head[i].key.StrKey?
    ensures MergeInto(acc, 0, head + es) == MergeInto(acc + head, 0, es)
    decreases |head|
  {
    if head == [] {
      assert head + es == es && acc + head == acc;
    } else {
      var e := head[0];
      assert (head + es)[0] == e && (head + es)[1..] == head[1..] + es;
      assert (acc + head)[|acc|] == e;
      assert forall i :: 0 <= i < |acc| ==> acc[i] == (acc + head)[i];
      PutNew(acc, e);
      assert acc + [e] + head[1..] == acc + head;
      MergeIntoStringHead(acc + [e], head[1..], es);
    }
  }

  /** Response::success: the envelope with the given status. */
  function Success(data: Value, message: Value, status: int): (r: Reply)
    ensures r.status == status && r.body == Arr(SuccessBody(data, message))
  {
    Reply(status, Arr(SuccessBody(data, message)))
  }

  /** error's envelope: success:false and the message, then errors unless it is null. */
  function ErrorBody(message: Value, errors: Value): (d: Dict)
    ensures UniqueKeys(d)
    ensures Lookup(d, StrKey("success")) == Some(Bool(false))
    ensures Lookup(d, StrKey("message")) == Some(message)
    ensures Lookup(d, StrKey("errors")) == if errors != Null then Some(errors) else None
    ensures forall s :: s != "success" && s != "message" && s != "errors" ==> !HasKey(d, StrKey(s))
  {
    var start := [Entry(StrKey("success"), Bool(false)), Entry(StrKey("message"), message)];
    assert forall k :: IndexOfKey(start, k) == (if k == StrKey("success") then 0 else if k == StrKey("message") then 1 else -1);
    if errors != Null then
      PutNew(start, Entry(StrKey("errors"), errors));
      Put(start, StrKey("errors"), errors)
    else start
  }

  /** Response::error. */
  function Error(message: Value, status: int, errors: Value): (r: Reply)
    ensures r.status == status && r.body == Arr(ErrorBody(message, errors))
  {
    Reply(status, Arr(ErrorBody(message, errors)))
  }

  /** Response::json: the data as it is. */
  function Json(data: Value, status: int): (r: Reply)
    ensures r.status == status && r.body == data
  {
    Reply(status, data)
  }

  /** The envelope of a status helper: success:false, the message, and no errors key. */
  predicate PlainError(r: Reply, message: Value)
  {
    r.body.Arr? && Lookup(r.body.entries, StrKey("success")) == Some(Bool(false)) &&
    Lookup(r.body.entries, StrKey("message")) == Some(message) &&
    !HasKey(r.body.entries, StrKey("errors"))
  }

  /** Response::notFound. */
  function NotFound(message: Value): (r: Reply)
    ensures r.status == 404 && PlainError(r, message)
  {
    Error(message, 404, Null)
  }

  /** Response::unauthorized. */
  function Unauthorized(message: Value): (r: Reply)
    ensures r.status == 401 && PlainError(r, message)
  {
    Error(message, 401, Null)
  }

  /** Response::forbidden. */
  function Forbidden(message: Value): (r: Reply)
    ensures r.status == 403 && PlainError(r, message)
  {
    Error(message, 403, Null)
  }

  /** Response::serverError. */
  function ServerError(message: Value): (r: Reply)
    ensures r.status == 500 && PlainError(r, message)
  {
    Error(message, 500, Null)
  }
}
