// BaseModel's logError (app/Models/BaseModel.php:767-774) builds its line
// with sprintf. The format holds four %s conversions and the call passes
// three arguments, which PHP 8 answers with an ArgumentCountError; the
// line it evidently meant ends with the statement.
module Logging {
  import opened Wrappers

  /**
   * The format string of logError, "[%s] %s - Table: %s, SQL: %s",
   * written as its text pieces and conversions.
   */
  const LogFormat := "[" + ("%s" + ("] " + ("%s" + (" - Table: " + ("%s" + (", SQL: " + "%s"))))))

  /** The number of %s conversions in a format. */
  function Conversions(fmt: string): nat
    decreases |fmt|
  {
    if |fmt| >= 2 && fmt[0] == '%' && fmt[1] == 's' then 1 + Conversions(fmt[2..])
    else if fmt == [] then 0
    else Conversions(fmt[1..])
  }

  /**
   * sprintf on formats whose only conversion is %s: each %s takes the
   * next argument; running out of arguments is an error (none), and
   * arguments left over are ignored.
   */
  function Sprintf(fmt: string, args: seq<string>): Option<string>
    decreases |fmt|
  {
    if |fmt| >= 2 && fmt[0] == '%' && fmt[1] == 's' then
      if args == [] then None
      else match Sprintf(fmt[2..], args[1..])
        case None => None
        case Some(rest) => Some(args[0] + rest)
    else if fmt == [] then Some("")
    else match Sprintf(fmt[1..], args)
      case None => None
      case Some(rest) => Some([fmt[0]] + rest)
  }

  /** sprintf fails exactly when the format has more conversions than there are arguments. */
  lemma {:induction false} SprintfFails(fmt: string, args: seq<string>)
    ensures Sprintf(fmt, args).None? <==> |args| < Conversions(fmt)
    decreases |fmt|
  {
    if |fmt| >= 2 && fmt[0] == '%' && fmt[1] == 's' {
      if args != [] {
        SprintfFails(fmt[2..], args[1..]);
      }
    } else if fmt != [] {
      SprintfFails(fmt[1..], args);
    }
  }

  /** Text without a % is copied to the output. */
  lemma {:induction false} SprintfText(text: string, rest: string, args: seq<string>)
    requires '%' !in text
    ensures Sprintf(text + rest, args) ==
      match Sprintf(rest, args) case None => None case Some(r) => Some(text + r)
    decreases |text|
  {
    if text == [] {
      assert text + rest == rest;
      match Sprintf(rest, args)
      case None =>
      case Some(r) =>
        assert text + r == r;
    } else {
      assert (text + rest)[1..] == text[1..] + rest;
      assert (text + rest)[0] == text[0];
      SprintfText(text[1..], rest, args);
      match Sprintf(rest, args)
      case None =>
      case Some(r) =>
        assert [text[0]] + (text[1..] + r) == text + r;
    }
  }

  /** A %s takes the first argument. */
  lemma SprintfConversion(rest: string, a: string, args: seq<string>)
    ensures Sprintf("%s" + rest, [a] + args) ==
      match Sprintf(rest, args) case None => None case Some(r) => Some(a + r)
  {
    assert ("%s" + rest)[2..] == rest;
    assert ([a] + args)[1..] == args;
  }

  /** Text without a % holds no conversion. */
  lemma {:induction false} ConversionsText(text: string, rest: string)
    requires '%' !in text
    ensures Conversions(text + rest) == Conversions(rest)
    decreases |text|
  {
    if text == [] {
      assert text + rest == rest;
    } else {
      assert (text + rest)[1..] == text[1..] + rest;
      assert (text + rest)[0] == text[0];
      ConversionsText(text[1..], rest);
    }
  }

  /** A %s is one conversion. */
  lemma ConversionsSpec(rest: string)
    ensures Conversions("%s" + rest) == 1 + Conversions(rest)
  {
    assert ("%s" + rest)[2..] == rest;
  }

  /** `logLine` as written in logError: three arguments for the four conversions. */
  function LogLineAsWritten(cls: string, message: string, table: string): Option<string>
  {
    Sprintf(LogFormat, [cls, message, table])
  }

  lemma LogFormatConversions()
    ensures Conversions(LogFormat) == 4
  {
    var f4 := "%s";
    var f3 := "%s" + (", SQL: " + f4);
    var f2 := "%s" + (" - Table: " + f3);
    var f1 := "%s" + ("] " + f2);
    assert f4 == "%s" + "";
    ConversionsSpec("");
    ConversionsText(", SQL: ", f4);
    ConversionsSpec(", SQL: " + f4);
    ConversionsText(" - Table: ", f3);
    ConversionsSpec(" - Table: " + f3);
    ConversionsText("] ", f2);
    ConversionsSpec("] " + f2);
    ConversionsText("[", f1);
  }

  /** On every input the call as written has no line to log: sprintf throws. */
  lemma LogLineAlwaysFails(cls: string, message: string, table: string)
    ensures LogLineAsWritten(cls, message, table).None?
  {
    LogFormatConversions();
    SprintfFails(LogFormat, [cls, message, table]);
  }

  /** logError's line with the statement as the fourth argument. */
  function LogLine(cls: string, message: string, table: string, sql: string): Option<string>
  {
    Sprintf(LogFormat, [cls, message, table, sql])
  }

  /** With the statement as the fourth argument the line is built, holding all four in order. */
  lemma LogLineText(cls: string, message: string, table: string, sql: string)
    ensures LogLine(cls, message, table, sql) ==
      Some("[" + (cls + ("] " + (message + (" - Table: " + (table + (", SQL: " + sql)))))))
  {
    var f4 := "%s";
    var f3 := "%s" + (", SQL: " + f4);
    var f2 := "%s" + (" - Table: " + f3);
    var f1 := "%s" + ("] " + f2);
    assert f4 == "%s" + "";
    SprintfConversion("", sql, []);
    assert [sql] + [] == [sql] && sql + "" == sql;
    assert Sprintf(f4, [sql]) == Some(sql);
    SprintfText(", SQL: ", f4, [sql]);
    SprintfConversion(", SQL: " + f4, table, [sql]);
    assert [table] + [sql] == [table, sql];
    assert Sprintf(f3, [table, sql]) == Some(table + (", SQL: " + sql));
    SprintfText(" - Table: ", f3, [table, sql]);
    SprintfConversion(" - Table: " + f3, message, [table, sql]);
    assert [message] + [table, sql] == [message, table, sql];
    SprintfText("] ", f2, [message, table, sql]);
    SprintfConversion("] " + f2, cls, [message, table, sql]);
    assert [cls] + [message, table, sql] == [cls, message, table, sql];
    SprintfText("[", f1, [cls, message, table, sql]);
  }
}
