// PHP 7's numeric strings: the number the leading part of a string
// denotes, as the (int) cast and loose comparison read it, and the
// 64-bit integer range the cast saturates to.
module Numbers {
  import opened Strings

  /** m times 10 to the power e, exactly. */
  function Scaled(m: nat, e: int): (r: real)
    ensures r >= 0.0
    ensures e == 0 ==> r == m as real
    decreases if e < 0 then -e else e
  {
    if e == 0 then m as real else if e > 0 then 10.0 * Scaled(m, e - 1) else Scaled(m, e + 1) / 10.0
  }

  /** A numeric prefix: the characters it spans and the number they denote. */
  datatype Reading = NoNumber | Number(len: nat, value: real)

  predicate IsSign(c: char) { c == '+' || c == '-' }

  /**
   * The exponent at the start of s: 'e' or 'E', an optional sign and at
   * least one digit, as its length and value; (0, 0) when there is none.
   */
  function ExponentPart(s: string): (r: (nat, int))
    ensures r.0 <= |s|
    ensures r.0 == 0 ==> r.1 == 0
  {
    if |s| >= 2 && (s[0] == 'e' || s[0] == 'E') then
      var sg := if IsSign(s[1]) then 1 else 0;
      if 1 + sg < |s| && IsDigit(s[1 + sg]) then
        var d := DigitPrefix(s[1 + sg..]);
        var v: int := DigitsValue(d);
        (1 + sg + |d|, if sg == 1 && s[1] == '-' then -v else v)
      else (0, 0)
    else (0, 0)
  }

  /**
   * The mantissa at the start of s: digits, then an optional '.' with
   * more digits, where a leading '.' needs a digit after it; as its
   * length, its digits and how many of them follow the point.
   */
  function Mantissa(s: string): (r: (nat, string, nat))
    ensures r.0 <= |s| && AllDigits(r.1) && r.2 <= |r.1|
    ensures r.0 == 0 <==> s == [] || (!IsDigit(s[0]) && (s[0] != '.' || |s| < 2 || !IsDigit(s[1])))
  {
    var d1 := DigitPrefix(s);
    var rest := s[|d1|..];
    if rest != [] && rest[0] == '.' && (d1 != [] || (|rest| >= 2 && IsDigit(rest[1]))) then
      var d2 := DigitPrefix(rest[1..]);
      (|d1| + 1 + |d2|, d1 + d2, |d2|)
    else (|d1|, d1, 0)
  }

  /** The mantissa of a run of digits followed by anything but '.' is that run. */
  lemma MantissaOfDigits(d: string, rest: string)
    requires AllDigits(d) && (rest == [] || (!IsDigit(rest[0]) && rest[0] != '.'))
    ensures Mantissa(d + rest) == (|d|, d, 0)
  {
    DigitPrefixOfDigits(d, rest);
    assert (d + rest)[|d|..] == rest;
  }

  /** The unsigned number at the start of s: a mantissa and an optional exponent. */
  function UnsignedNumber(s: string): (r: Reading)
    ensures r.Number? ==> 1 <= r.len <= |s| && r.value >= 0.0
    ensures r.NoNumber? <==> Mantissa(s).0 == 0
  {
    var m := Mantissa(s);
    if m.0 == 0 then NoNumber
    else
      var e := ExponentPart(s[m.0..]);
      Number(m.0 + e.0, Scaled(DigitsValue(m.1), e.1 - m.2))
  }

  /** An optional sign, then an unsigned number. */
  function SignedNumber(t: string): (r: Reading)
    ensures r.Number? ==> 1 <= r.len <= |t|
  {
    var sg := if t != [] && IsSign(t[0]) then 1 else 0;
    var u := UnsignedNumber(t[sg..]);
    if u.NoNumber? then NoNumber
    else Number(sg + u.len, if sg == 1 && t[0] == '-' then -u.value else u.value)
  }

  /** What PHP reads from s: leading whitespace, an optional sign, then an unsigned number. */
  function ReadNumber(s: string): (r: Reading)
    ensures r.Number? ==> r.len <= |s|
  {
    var t := TrimLeft(s, LeadingSpace);
    var r := SignedNumber(t);
    if r.NoNumber? then NoNumber else Number(|s| - |t| + r.len, r.value)
  }

  /** A numeric string: the number spans the whole text, so trailing whitespace is not allowed. */
  predicate IsNumericText(s: string)
  {
    ReadNumber(s).Number? && ReadNumber(s).len == |s|
  }

  /** The number the leading part of s denotes; 0 when it starts with no number. */
  function LeadingValue(s: string): real
  {
    if ReadNumber(s).Number? then ReadNumber(s).value else 0.0
  }

  const IntMax: int := 0x7FFF_FFFF_FFFF_FFFF
  const IntMin: int := -0x8000_0000_0000_0000

  /** Truncation toward zero. */
  function Truncate(x: real): (i: int)
    ensures x >= 0.0 ==> i as real <= x < i as real + 1.0
    ensures x < 0.0 ==> i as real - 1.0 < x <= i as real
  {
    if x >= 0.0 then x.Floor else -((-x).Floor)
  }

  lemma TruncateInt(n: int)
    ensures Truncate(n as real) == n
  {
  }

  /**
   * (int) of a string on a 64-bit build: the leading number truncated
   * toward zero and saturated at the ends of the integer range.
   */
  function CastToInt(s: string): (i: int)
    ensures IntMin <= i <= IntMax
    ensures IntMin as real <= LeadingValue(s) < IntMax as real + 1.0 ==> i == Truncate(LeadingValue(s))
  {
    var t := Truncate(LeadingValue(s));
    if t > IntMax then IntMax else if t < IntMin then IntMin else t
  }

  /** ltrim leaves a text alone whose first character it does not strip. */
  lemma TrimLeftKeeps(s: string, cs: set<char>)
    requires s == [] || s[0] !in cs
    ensures TrimLeft(s, cs) == s
  {
  }

  /** A run of digits reads as its value and spans the whole text. */
  lemma DigitsNumber(d: string)
    requires |d| >= 1 && AllDigits(d)
    ensures UnsignedNumber(d) == Number(|d|, DigitsValue(d) as real)
  {
    MantissaOfDigits(d, "");
    assert d + "" == d;
    assert d[|d|..] == "";
  }

  /** A run of digits is a numeric string worth its value. */
  lemma DigitsText(d: string)
    requires |d| >= 1 && AllDigits(d)
    ensures ReadNumber(d) == Number(|d|, DigitsValue(d) as real)
    ensures LeadingValue(d) == DigitsValue(d) as real
  {
    assert IsDigit(d[0]);
    TrimLeftKeeps(d, LeadingSpace);
    var t := TrimLeft(d, LeadingSpace);
    assert !IsSign(t[0]);
    assert t[0..] == d;
    DigitsNumber(d);
  }

  /** A minus sign before an unsigned number negates it. */
  lemma MinusSign(u: string)
    requires UnsignedNumber(u).Number?
    ensures SignedNumber("-" + u) == Number(1 + UnsignedNumber(u).len, -UnsignedNumber(u).value)
  {
    assert ("-" + u)[1..] == u;
  }

  /** A minus sign and a run of digits is a numeric string worth the negated run. */
  /** Text that starts with no whitespace is read by the sign reader alone. */
  lemma ReadNumberNoSpace(s: string)
    requires s != [] && s[0] !in LeadingSpace
    ensures ReadNumber(s) == SignedNumber(s)
  {
    TrimLeftKeeps(s, LeadingSpace);
  }

  lemma NegDigitsText(d: string)
    requires |d| >= 1 && AllDigits(d)
    ensures ReadNumber("-" + d) == Number(1 + |d|, -(DigitsValue(d) as real))
  {
    var s := "-" + d;
    assert s[0] == '-';
    ReadNumberNoSpace(s);
    DigitsNumber(d);
    MinusSign(d);
  }

  lemma ReadIntText(n: int)
    ensures ReadNumber(IntToString(n)) == Number(|IntToString(n)|, n as real)
    ensures IsNumericText(IntToString(n)) && LeadingValue(IntToString(n)) == n as real
  {
    if n >= 0 {
      DigitsText(NatToString(n));
      DigitsOfNat(n);
    } else {
      NegDigitsText(NatToString(-n));
      DigitsOfNat(-n);
    }
  }

  /** The (int) cast reads back the decimal text of any 64-bit integer. */
  lemma CastIntText(n: int)
    requires IntMin <= n <= IntMax
    ensures CastToInt(IntToString(n)) == n
  {
    ReadIntText(n);
  }

  /** A text that starts with neither whitespace, sign, digit nor '.' denotes no number. */
  lemma NoNumberText(s: string)
    requires s != [] && s[0] !in LeadingSpace && !IsSign(s[0]) && !IsDigit(s[0]) && s[0] != '.'
    ensures ReadNumber(s) == NoNumber && !IsNumericText(s) && LeadingValue(s) == 0.0
  {
    TrimLeftKeeps(s, LeadingSpace);
    assert s[0..] == s;
  }

  /** 'e' and a run of digits make an exponent worth the digits. */
  lemma ExponentOfDigits(x: string)
    requires |x| >= 1 && AllDigits(x)
    ensures ExponentPart("e" + x) == (1 + |x|, DigitsValue(x) as int)
  {
    var s := "e" + x;
    assert !IsSign(s[1]) && IsDigit(s[1]);
    DigitPrefixOfDigits(x, "");
    assert s[1..] == x + "";
  }

  /** Digits, 'e' and digits read as the mantissa scaled by the exponent. */
  lemma ExponentNumber(d: string, x: string)
    requires |d| >= 1 && AllDigits(d) && |x| >= 1 && AllDigits(x)
    ensures UnsignedNumber(d + "e" + x) == Number(|d| + 1 + |x|, Scaled(DigitsValue(d), DigitsValue(x)))
  {
    var t := "e" + x;
    var s := d + t;
    assert d + "e" + x == s;
    MantissaOfDigits(d, t);
    assert s[|d|..] == t;
    ExponentOfDigits(x);
    assert UnsignedNumber(s) == Number(|d| + 1 + |x|, Scaled(DigitsValue(d), DigitsValue(x) - 0));
  }

  /** A text of digits, 'e' and digits is worth the mantissa scaled by the exponent. */
  lemma ExponentValue(d: string, x: string)
    requires |d| >= 1 && AllDigits(d) && |x| >= 1 && AllDigits(x)
    ensures LeadingValue(d + "e" + x) == Scaled(DigitsValue(d), DigitsValue(x))
  {
    var s := d + "e" + x;
    assert s[0] == d[0] && IsDigit(s[0]);
    TrimLeftKeeps(s, LeadingSpace);
    assert s[0..] == s;
    ExponentNumber(d, x);
  }

  lemma OneDigit(c: char)
    requires IsDigit(c)
    ensures DigitsValue([c]) == DigitValue(c)
  {
    assert [c][..0] == [];
  }

  /** One digit, 'e' and one digit: the first digit times 10 to the power of the second. */
  lemma ShortExponent(a: char, b: char)
    requires IsDigit(a) && IsDigit(b)
    ensures LeadingValue([a, 'e', b]) == Scaled(DigitValue(a), DigitValue(b))
  {
    assert [a] + "e" + [b] == [a, 'e', b];
    ExponentValue([a], [b]);
    OneDigit(a);
    OneDigit(b);
  }

  /** Scientific notation counts: (int) of "1e3" is 1000 and of "5e1" is 50. */
  lemma ExponentText()
    ensures CastToInt("1e3") == 1000 && CastToInt("5e1") == 50
  {
    ShortExponent('1', '3');
    assert Scaled(1, 3) == 1000.0 by { assert Scaled(1, 1) == 10.0; assert Scaled(1, 2) == 100.0; }
    TruncateInt(1000);
    ShortExponent('5', '1');
    assert Scaled(5, 1) == 50.0;
    TruncateInt(50);
  }

  /** A run of digits worth more than the integer range saturates at its top. */
  lemma SaturatedDigits(d: string)
    requires |d| >= 1 && AllDigits(d) && DigitsValue(d) > IntMax
    ensures CastToInt(d) == IntMax
  {
    DigitsText(d);
    TruncateInt(DigitsValue(d));
  }

  /** A run of digits followed by text that is neither digit, '.' nor 'e' is worth the run but is not numeric. */
  lemma DigitsThenText(d: string, rest: string)
    requires |d| >= 1 && AllDigits(d) && rest != []
    requires !IsDigit(rest[0]) && rest[0] != '.' && rest[0] != 'e' && rest[0] != 'E'
    ensures !IsNumericText(d + rest) && LeadingValue(d + rest) == DigitsValue(d) as real
  {
    var s := d + rest;
    assert s[0] == d[0] && IsDigit(s[0]);
    TrimLeftKeeps(s, LeadingSpace);
    assert s[0..] == s;
    MantissaOfDigits(d, rest);
    assert s[|d|..] == rest;
    assert ExponentPart(rest) == (0, 0);
    assert UnsignedNumber(s) == Number(|d|, Scaled(DigitsValue(d), 0));
  }

  /** Trailing whitespace or text makes a string non-numeric but leaves its leading number. */
  lemma SpaceAroundNumber()
    ensures !IsNumericText("5 ") && LeadingValue("5 ") == 5.0
    ensures !IsNumericText("5abc") && LeadingValue("5abc") == 5.0
  {
    OneDigit('5');
    assert "5" + " " == "5 ";
    DigitsThenText("5", " ");
    assert "5" + "abc" == "5abc";
    DigitsThenText("5", "abc");
  }
}
