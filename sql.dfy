// The SQL text BaseModel builds for the mysqli connection
// (app/Models/BaseModel.php): the WHERE and ORDER BY clauses of the query
// builder, the LIMIT/OFFSET of findAll, and the find, count, insert,
// update and delete statements.
module Sql {
  import opened Strings
  import opened Php
  import opened Numbers

  /** The connection's real_escape_string, left uninterpreted. */
  datatype Driver = Driver(escape: string -> string)

  /** An entry of the where list; every entry is joined with AND. */
  datatype Condition = Condition(field: string, operator: string, value: Value)

  /** A value in a condition or an IN list: numeric as it is, anything else quoted and escaped. */
  function Rendered(d: Driver, v: Value): string
  {
    if IsNumeric(v) then ToStr(v) else "'" + d.escape(ToStr(v)) + "'"
  }

  /** A value in INSERT or UPDATE, where null is also written as NULL. */
  function Written(d: Driver, v: Value): string
  {
    if v == Null then "NULL" else Rendered(d, v)
  }

  /** The members of an IN list; a value that is not an array has none. */
  function InValues(d: Driver, v: Value): (items: seq<string>)
    ensures v.Arr? ==> (|items| == |v.entries| &&
      forall i :: 0 <= i < |items| ==> items[i] == Rendered(d, v.entries[i].val))
    ensures !v.Arr? ==> items == []
  {
    match v
    case Arr(es) => seq(|es|, i requires 0 <= i < |es| => Rendered(d, es[i].val))
    case _ => []
  }

  /** One condition of buildWhereClause. */
  function ConditionText(d: Driver, c: Condition): string
  {
    if c.operator == "IN" then c.field + " IN (" + Implode(InValues(d, c.value), ", ") + ")"
    else c.field + " " + c.operator + " " + Rendered(d, c.value)
  }

  function Conditions(d: Driver, ws: seq<Condition>): (cs: seq<string>)
    ensures |cs| == |ws| && forall i :: 0 <= i < |ws| ==> cs[i] == ConditionText(d, ws[i])
  {
    seq(|ws|, i requires 0 <= i < |ws| => ConditionText(d, ws[i]))
  }

  /** buildWhereClause on the mysqli connection. */
  function WhereClause(d: Driver, ws: seq<Condition>): (r: string)
    ensures r == "" <==> ws == []
    ensures ws != [] ==> StartsWith(r, " WHERE ")
  {
    if ws == [] then "" else " WHERE " + Implode(Conditions(d, ws), " AND ")
  }

  /** buildOrderByClause. */
  function OrderByClause(os: seq<string>): (r: string)
    ensures r == "" <==> os == []
    ensures os != [] ==> StartsWith(r, " ORDER BY ")
  {
    if os == [] then "" else " ORDER BY " + Implode(os, ", ")
  }

  /** The tail findAll appends: LIMIT only with a limit, OFFSET only with both. */
  function LimitClause(limit: Value, offset: Value): string
  {
    if limit == Null then ""
    else " LIMIT " + IntToString(ToInt(limit)) +
         (if offset == Null then "" else " OFFSET " + IntToString(ToInt(offset)))
  }

  function SelectHead(table: string): string
  {
    "SELECT * FROM " + table
  }

  /** findAll's statement. */
  function SelectSql(table: string, d: Driver, ws: seq<Condition>, os: seq<string>,
                     limit: Value, offset: Value): string
  {
    SelectHead(table) + WhereClause(d, ws) + OrderByClause(os) + LimitClause(limit, offset)
  }

  /** count's statement. */
  function CountSql(table: string, d: Driver, ws: seq<Condition>): string
  {
    "SELECT COUNT(*) as total FROM " + table + WhereClause(d, ws)
  }

  /** The primary-key test of find, update and delete. */
  function KeyTest(pk: string, d: Driver, id: Value): string
  {
    " WHERE " + pk + " = '" + d.escape(ToStr(id)) + "'"
  }

  function FindSql(table: string, pk: string, d: Driver, id: Value): string
  {
    "SELECT * FROM " + table + KeyTest(pk, d, id) + " LIMIT 1"
  }

  function DeleteSql(table: string, pk: string, d: Driver, id: Value): string
  {
    "DELETE FROM " + table + KeyTest(pk, d, id)
  }

  /** array_keys, as the column list of an INSERT. */
  function Columns(data: Dict): (cs: seq<string>)
    ensures |cs| == |data| && forall i :: 0 <= i < |data| ==> cs[i] == KeyString(data[i].key)
  {
    seq(|data|, i requires 0 <= i < |data| => KeyString(data[i].key))
  }

  /** The escaped values of an INSERT, in the data's order. */
  function WrittenValues(d: Driver, data: Dict): (vs: seq<string>)
    ensures |vs| == |data| && forall i :: 0 <= i < |data| ==> vs[i] == Written(d, data[i].val)
  {
    seq(|data|, i requires 0 <= i < |data| => Written(d, data[i].val))
  }

  function InsertSql(table: string, columns: seq<string>, values: seq<string>): string
  {
    "INSERT INTO " + table + " (" + Implode(columns, ", ") + ") VALUES (" + Implode(values, ", ") + ")"
  }

  /** One `column = value` of an UPDATE. */
  function SetPart(d: Driver, e: Entry): string
  {
    KeyString(e.key) + " = " + Written(d, e.val)
  }

  function SetParts(d: Driver, data: Dict): (ps: seq<string>)
    ensures |ps| == |data| && forall i :: 0 <= i < |data| ==> ps[i] == SetPart(d, data[i])
  {
    seq(|data|, i requires 0 <= i < |data| => SetPart(d, data[i]))
  }

  function UpdateSql(table: string, pk: string, d: Driver, id: Value, setParts: seq<string>): string
  {
    "UPDATE " + table + " SET " + Implode(setParts, ", ") + KeyTest(pk, d, id)
  }

  /**
   * A condition appended to the where list extends the clause: the
   * first one opens it with WHERE, each later one joins with AND, and
   * what was there stays in front.
   */
  lemma WhereClauseSnoc(d: Driver, ws: seq<Condition>, w: Condition)
    ensures WhereClause(d, ws + [w]) ==
      if ws == [] then " WHERE " + ConditionText(d, w)
      else WhereClause(d, ws) + " AND " + ConditionText(d, w)
  {
    var cs := Conditions(d, ws);
    assert Conditions(d, ws + [w]) == cs + [ConditionText(d, w)];
    if ws == [] {
      assert cs + [ConditionText(d, w)] == [ConditionText(d, w)];
    } else {
      ImplodeSnoc(cs, ConditionText(d, w), " AND ");
    }
  }

  /** The same for the ORDER BY list. */
  lemma OrderByClauseSnoc(os: seq<string>, o: string)
    ensures OrderByClause(os + [o]) ==
      if os == [] then " ORDER BY " + o else OrderByClause(os) + ", " + o
  {
    if os == [] {
      assert os + [o] == [o];
    } else {
      ImplodeSnoc(os, o, ", ");
    }
  }

  /**
   * Written values: null is NULL, a numeric value goes in unquoted, and
   * anything else is its escaped text inside single quotes.
   */
  lemma WrittenCases(d: Driver, v: Value)
    ensures v == Null ==> Written(d, v) == "NULL"
    ensures v != Null && IsNumeric(v) ==> Written(d, v) == ToStr(v)
    ensures v != Null && !IsNumeric(v) ==>
      var w := Written(d, v);
      |w| >= 2 && w[0] == '\'' && w[|w| - 1] == '\'' && w[1..|w| - 1] == d.escape(ToStr(v))
  {
  }

  /** An integer and the decimal text of one are numeric and so go in bare. */
  lemma RenderedInt(d: Driver, n: int)
    ensures Rendered(d, Int(n)) == IntToString(n)
    ensures Rendered(d, Str(IntToString(n))) == IntToString(n)
  {
    ReadIntText(n);
    assert IsNumeric(Str(IntToString(n)));
  }

  /** A name that starts with a letter is not numeric and so is quoted. */
  lemma RenderedName(d: Driver, s: string)
    requires LetterFirst(s)
    ensures Rendered(d, Str(s)) == "'" + d.escape(s) + "'"
  {
    LetterFirstText(s);
    assert !IsNumeric(Str(s));
  }

  /**
   * What is_numeric decides for the values a request or a row supplies:
   * an integer, or the decimal text of one, goes in bare; a name that
   * starts with a letter, or the boolean true, is quoted.
   */
  lemma RenderedKinds(d: Driver, n: int, s: string)
    ensures Rendered(d, Int(n)) == IntToString(n)
    ensures Rendered(d, Str(IntToString(n))) == IntToString(n)
    ensures LetterFirst(s) ==> Rendered(d, Str(s)) == "'" + d.escape(s) + "'"
    ensures Rendered(d, Bool(true)) == "'" + d.escape("1") + "'"
  {
    RenderedInt(d, n);
    if LetterFirst(s) {
      RenderedName(d, s);
    }
  }
}
