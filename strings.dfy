// The PHP string functions the core relies on, over `seq<char>`:
// explode/implode, strpos, trim, strtolower/ucfirst, str_pad and the
// decimal conversions behind string interpolation and the (int) cast.
module Strings {

  // ---------------------------------------------------------------
  // explode / implode
  // ---------------------------------------------------------------

  /** explode(c, s): the pieces of s between occurrences of c. */
  function Split(s: string, c: char): (parts: seq<string>)
    ensures |parts| >= 1
    ensures forall p :: p in parts ==> c !in p
    decreases |s|
  {
    if s == [] then [""]
    else
      var rest := Split(s[1..], c);
      if s[0] == c then [""] + rest
      else [[s[0]] + rest[0]] + rest[1..]
  }

  /** implode(sep, parts). */
  function Implode(parts: seq<string>, sep: string): (s: string)
    decreases |parts|
  {
    if parts == [] then ""
    else if |parts| == 1 then parts[0]
    else parts[0] + sep + Implode(parts[1..], sep)
  }

  /** One more piece after a non-empty run of them. */
  lemma {:induction false} ImplodeSnoc(parts: seq<string>, p: string, sep: string)
    requires parts != []
    ensures Implode(parts + [p], sep) == Implode(parts, sep) + sep + p
    decreases |parts|
  {
    if |parts| == 1 {
      assert parts + [p] == [parts[0], p];
      assert [parts[0], p][1..] == [p];
    } else {
      ImplodeSnoc(parts[1..], p, sep);
      assert (parts + [p])[1..] == parts[1..] + [p];
    }
  }

  predicate NoneContains(parts: seq<string>, c: char)
  {
    forall p :: p in parts ==> c !in p
  }

  /** implode undoes explode. */
  lemma {:induction false} JoinSplit(s: string, c: char)
    ensures Implode(Split(s, c), [c]) == s
    decreases |s|
  {
    if s != [] {
      var rest := Split(s[1..], c);
      JoinSplit(s[1..], c);
      if s[0] == c {
        assert Split(s, c) == [""] + rest;
        assert ([""] + rest)[1..] == rest;
        assert Implode([""] + rest, [c]) == "" + [c] + Implode(rest, [c]);
        assert s == [c] + s[1..];
      } else if |rest| == 1 {
        assert Split(s, c) == [[s[0]] + rest[0]];
        assert s == [s[0]] + s[1..];
      } else {
        var parts := [[s[0]] + rest[0]] + rest[1..];
        assert Split(s, c) == parts;
        assert parts[1..] == rest[1..];
        assert Implode(rest, [c]) == rest[0] + [c] + Implode(rest[1..], [c]);
        assert Implode(parts, [c]) == [s[0]] + rest[0] + [c] + Implode(rest[1..], [c]);
        assert s == [s[0]] + s[1..];
      }
    }
  }

  /** Every character of a piece comes from the split string. */
  lemma {:induction false} SplitChars(s: string, c: char)
    ensures forall p, x :: p in Split(s, c) && x in p ==> x in s
    decreases |s|
  {
    if s != [] {
      SplitChars(s[1..], c);
      var rest := Split(s[1..], c);
      assert forall x :: x in s[1..] ==> x in s;
      assert forall x :: x in [s[0]] + rest[0] ==> x == s[0] || x in rest[0];
    }
  }

  /** A string free of the separator is split into itself. */
  lemma {:induction false} SplitNoSeparator(a: string, c: char)
    requires c !in a
    ensures Split(a, c) == [a]
    decreases |a|
  {
    if a != [] {
      SplitNoSeparator(a[1..], c);
      assert a == [a[0]] + a[1..];
    }
  }

  /** Splitting at a separator placed after a separator-free prefix. */
  lemma {:induction false} SplitAtSeparator(a: string, b: string, c: char)
    requires c !in a
    ensures Split(a + [c] + b, c) == [a] + Split(b, c)
    decreases |a|
  {
    if a == [] {
      assert a + [c] + b == [c] + b;
      assert ([c] + b)[1..] == b;
    } else {
      var s := a + [c] + b;
      assert s[0] == a[0] && s[1..] == a[1..] + [c] + b;
      SplitAtSeparator(a[1..], b, c);
      assert [a[0]] + a[1..] == a;
    }
  }

  /** explode undoes implode when no piece contains the separator. */
  lemma {:induction false} SplitJoin(parts: seq<string>, c: char)
    requires |parts| >= 1
    requires NoneContains(parts, c)
    ensures Split(Implode(parts, [c]), c) == parts
    decreases |parts|
  {
    if |parts| == 1 {
      SplitNoSeparator(parts[0], c);
    } else {
      assert parts[0] in parts;
      assert forall p :: p in parts[1..] ==> p in parts;
      SplitJoin(parts[1..], c);
      SplitAtSeparator(parts[0], Implode(parts[1..], [c]), c);
      assert [parts[0]] + parts[1..] == parts;
    }
  }

  // ---------------------------------------------------------------
  // strpos(s, c) and explode(c, s, 2)
  // ---------------------------------------------------------------

  /** The index of the first c in s, or -1. */
  function IndexOf(s: string, c: char): (i: int)
    ensures -1 <= i < |s|
    ensures i >= 0 ==> s[i] == c && c !in s[..i]
    ensures i < 0 <==> c !in s
    decreases |s|
  {
    if s == [] then -1
    else if s[0] == c then 0
    else
      var j := IndexOf(s[1..], c);
      assert s[1..][..if j < 0 then 0 else j] == s[1..if j < 0 then 1 else j + 1];
      if j < 0 then -1 else j + 1
  }

  /** explode(c, s, 2): at most two pieces, cut at the first c. */
  function SplitOnce(s: string, c: char): (parts: seq<string>)
    ensures c !in s ==> parts == [s]
    ensures c in s ==> |parts| == 2 && c !in parts[0] && parts[0] + [c] + parts[1] == s
  {
    var i := IndexOf(s, c);
    if i < 0 then [s]
    else
      assert s == s[..i] + [c] + s[i + 1..];
      [s[..i], s[i + 1..]]
  }

  /** The first c of s is at k when s holds c at k and nowhere before. */
  lemma IndexOfFirst(s: string, c: char, k: int)
    requires 0 <= k < |s| && s[k] == c && c !in s[..k]
    ensures IndexOf(s, c) == k
  {
    assert s[k] in s;
    var i := IndexOf(s, c);
    assert forall j :: 0 <= j < k ==> s[..k][j] == s[j];
    assert forall j :: 0 <= j < i ==> s[..i][j] == s[j];
  }

  /** Splitting at the first c of a + [c] + b, where a holds no c, gives a and b. */
  lemma SplitOnceAt(a: string, b: string, c: char)
    requires c !in a
    ensures SplitOnce(a + [c] + b, c) == [a, b]
  {
    var s := a + [c] + b;
    assert s[..|a|] == a;
    assert s[|a| + 1..] == b;
    IndexOfFirst(s, c, |a|);
  }

  /** strpos(s, p) === 0 for a non-empty needle p. */
  predicate StartsWith(s: string, p: string)
  {
    |p| <= |s| && s[..|p|] == p
  }

  // ---------------------------------------------------------------
  // trim
  // ---------------------------------------------------------------

  /** The characters PHP's trim strips by default. */
  const Whitespace: set<char> := {' ', '\t', '\n', '\r', '\0', '\U{0B}'}

  function TrimLeft(s: string, cs: set<char>): (r: string)
    ensures |r| <= |s| && r == s[|s| - |r|..]
    ensures r == [] || r[0] !in cs
    decreases |s|
  {
    if s != [] && s[0] in cs then TrimLeft(s[1..], cs) else s
  }

  /** What ltrim removes is made of characters of cs only. */
  lemma {:induction false} TrimLeftDrops(s: string, cs: set<char>)
    ensures forall i :: 0 <= i < |s| - |TrimLeft(s, cs)| ==> s[i] in cs
    decreases |s|
  {
    if s != [] && s[0] in cs {
      TrimLeftDrops(s[1..], cs);
      assert forall i :: 1 <= i < |s| ==> s[i] == s[1..][i - 1];
    }
  }

  function TrimRight(s: string, cs: set<char>): (r: string)
    ensures |r| <= |s| && r == s[..|r|]
    ensures r == [] || r[|r| - 1] !in cs
    decreases |s|
  {
    if s != [] && s[|s| - 1] in cs then TrimRight(s[..|s| - 1], cs) else s
  }

  /** What rtrim removes is made of characters of cs only. */
  lemma {:induction false} TrimRightDrops(s: string, cs: set<char>)
    ensures forall i :: |TrimRight(s, cs)| <= i < |s| ==> s[i] in cs
    decreases |s|
  {
    if s != [] && s[|s| - 1] in cs {
      TrimRightDrops(s[..|s| - 1], cs);
      assert forall i :: 0 <= i < |s| - 1 ==> s[i] == s[..|s| - 1][i];
    }
  }

  /** trim(s, cs): the longest infix of s that neither starts nor ends with a character of cs. */
  function Trim(s: string, cs: set<char>): (r: string)
    ensures |r| <= |s|
    ensures r == [] || (r[0] !in cs && r[|r| - 1] !in cs)
  {
    TrimRight(TrimLeft(s, cs), cs)
  }

  /** trim is idempotent. */
  lemma TrimIdempotent(s: string, cs: set<char>)
    ensures Trim(Trim(s, cs), cs) == Trim(s, cs)
  {
    var t := Trim(s, cs);
    if t != [] {
      assert TrimLeft(t, cs) == t;
      assert TrimRight(t, cs) == t;
    }
  }

  /** trim with the default character set. */
  function TrimWs(s: string): string
  {
    Trim(s, Whitespace)
  }

  // ---------------------------------------------------------------
  // Case conversion (ASCII, as PHP 8's strtolower / ucfirst)
  // ---------------------------------------------------------------

  predicate IsUpper(c: char) { 'A' <= c <= 'Z' }

  function LowerChar(c: char): (d: char)
    ensures !IsUpper(d)
    ensures !IsUpper(c) ==> d == c
  {
    if IsUpper(c) then (c as int + 32) as char else c
  }

  function UpperChar(c: char): (d: char)
    ensures 'a' <= c <= 'z' ==> IsUpper(d)
    ensures !('a' <= c <= 'z') ==> d == c
  {
    if 'a' <= c <= 'z' then (c as int - 32) as char else c
  }

  /** strtolower. */
  function ToLower(s: string): (r: string)
    ensures |r| == |s|
    ensures forall i :: 0 <= i < |s| ==> r[i] == LowerChar(s[i])
    ensures forall i :: 0 <= i < |r| ==> !IsUpper(r[i])
  {
    seq(|s|, i requires 0 <= i < |s| => LowerChar(s[i]))
  }

  /** strtoupper. */
  function ToUpper(s: string): (r: string)
    ensures |r| == |s|
    ensures forall i :: 0 <= i < |s| ==> r[i] == UpperChar(s[i])
  {
    seq(|s|, i requires 0 <= i < |s| => UpperChar(s[i]))
  }

  /** ucfirst: only the first character changes. */
  function Ucfirst(s: string): (r: string)
    ensures |r| == |s|
    ensures s != [] ==> r[0] == UpperChar(s[0]) && r[1..] == s[1..]
  {
    if s == [] then s else [UpperChar(s[0])] + s[1..]
  }

  // ---------------------------------------------------------------
  // Decimal text
  // ---------------------------------------------------------------

  predicate IsDigit(c: char) { '0' <= c <= '9' }

  predicate AllDigits(s: string) { forall i :: 0 <= i < |s| ==> IsDigit(s[i]) }

  function DigitChar(d: nat): (c: char)
    requires d < 10
    ensures IsDigit(c)
  {
    ('0' as int + d) as char
  }

  function DigitValue(c: char): (d: nat)
    requires IsDigit(c)
    ensures d < 10 && DigitChar(d) == c
  {
    c as int - '0' as int
  }

  /** The decimal digits of n, with no leading zero. */
  function NatToString(n: nat): (s: string)
    ensures |s| >= 1 && AllDigits(s)
    ensures |s| > 1 ==> s[0] != '0'
    decreases n
  {
    if n < 10 then [DigitChar(n)] else NatToString(n / 10) + [DigitChar(n % 10)]
  }

  /** PHP's string form of an integer. */
  function IntToString(i: int): (s: string)
    ensures |s| >= 1
    ensures i >= 0 ==> AllDigits(s)
    ensures i < 0 ==> s[0] == '-' && AllDigits(s[1..])
  {
    if i >= 0 then NatToString(i) else "-" + NatToString(-i)
  }

  /** The value of a digit string. */
  function DigitsValue(s: string): (n: nat)
    requires AllDigits(s)
    decreases |s|
  {
    if s == [] then 0 else DigitsValue(s[..|s| - 1]) * 10 + DigitValue(s[|s| - 1])
  }

  lemma {:induction false} DigitsOfNat(n: nat)
    ensures DigitsValue(NatToString(n)) == n
    decreases n
  {
    if n >= 10 {
      DigitsOfNat(n / 10);
      var s := NatToString(n);
      assert s[..|s| - 1] == NatToString(n / 10);
    }
  }

  /** A run of zeros is worth nothing. */
  lemma {:induction false} ZerosValue(z: string)
    requires forall i :: 0 <= i < |z| ==> z[i] == '0'
    ensures AllDigits(z) && DigitsValue(z) == 0
    decreases |z|
  {
    if z != [] {
      ZerosValue(z[..|z| - 1]);
    }
  }

  /** Leading zeros do not change what a digit string is worth. */
  lemma {:induction false} LeadingZeros(z: string, s: string)
    requires forall i :: 0 <= i < |z| ==> z[i] == '0'
    requires AllDigits(s)
    ensures AllDigits(z + s) && DigitsValue(z + s) == DigitsValue(s)
    decreases |s|
  {
    ZerosValue(z);
    if s == [] {
      assert z + s == z;
    } else {
      var t := z + s;
      assert t[..|t| - 1] == z + s[..|s| - 1];
      LeadingZeros(z, s[..|s| - 1]);
    }
  }

  /** The longest prefix of s made of digits. */
  function DigitPrefix(s: string): (p: string)
    ensures |p| <= |s| && AllDigits(p) && p == s[..|p|]
    ensures |p| == |s| || !IsDigit(s[|p|])
    decreases |s|
  {
    if s != [] && IsDigit(s[0]) then [s[0]] + DigitPrefix(s[1..]) else ""
  }

  lemma {:induction false} DigitPrefixOfDigits(s: string, rest: string)
    requires AllDigits(s)
    requires rest == [] || !IsDigit(rest[0])
    ensures DigitPrefix(s + rest) == s
    decreases |s|
  {
    if s != [] {
      assert (s + rest)[1..] == s[1..] + rest;
      DigitPrefixOfDigits(s[1..], rest);
      assert [s[0]] + s[1..] == s;
    } else {
      assert s + rest == rest;
    }
  }

  /** Leading characters that PHP's numeric-prefix conversion skips. */
  const LeadingSpace: set<char> := {' ', '\t', '\n', '\r', '\U{0B}', '\U{0C}'}

  /**
   * (int) applied to a string: skip leading whitespace, read an optional
   * sign and the longest run of digits; no digits gives 0.
   */
  function StringToInt(s: string): (i: int)
  {
    var t := TrimLeft(s, LeadingSpace);
    if t != [] && (t[0] == '-' || t[0] == '+') then
      var m: int := DigitsValue(DigitPrefix(t[1..]));
      if t[0] == '-' then -m else m
    else DigitsValue(DigitPrefix(t))
  }

  lemma ReadDigits(d: string)
    requires |d| >= 1 && AllDigits(d)
    ensures TrimLeft(d, LeadingSpace) == d
    ensures DigitsValue(DigitPrefix(d)) == DigitsValue(d)
  {
    assert d[0] !in LeadingSpace;
    DigitPrefixOfDigits(d, "");
    assert d + "" == d;
  }

  /** A string that starts with a digit reads as its leading run of digits. */
  lemma UnsignedRead(t: string)
    requires t != [] && IsDigit(t[0])
    ensures StringToInt(t) == DigitsValue(DigitPrefix(t))
  {
    assert t[0] !in LeadingSpace;
    assert TrimLeft(t, LeadingSpace) == t;
  }

  lemma NatRoundTrip(n: nat)
    ensures StringToInt(NatToString(n)) == n
  {
    var d := NatToString(n);
    UnsignedRead(d);
    ReadDigits(d);
    DigitsOfNat(n);
  }

  /** A string that starts with a minus sign reads as the negated run of digits after it. */
  lemma SignedRead(t: string)
    requires t != [] && t[0] == '-'
    ensures StringToInt(t) == -(DigitsValue(DigitPrefix(t[1..])) as int)
  {
    assert t[0] !in LeadingSpace;
    assert TrimLeft(t, LeadingSpace) == t;
  }

  lemma NegRoundTrip(n: nat)
    requires n > 0
    ensures StringToInt("-" + NatToString(n)) == 0 - n
  {
    var d := NatToString(n);
    var s := "-" + d;
    assert s[1..] == d;
    SignedRead(s);
    ReadDigits(d);
    DigitsOfNat(n);
  }

  /** The (int) cast reads back what interpolation of an integer wrote. */
  lemma IntRoundTrip(i: int)
    ensures StringToInt(IntToString(i)) == i
  {
    if i >= 0 {
      NatRoundTrip(i);
    } else {
      NegRoundTrip(-i);
    }
  }

  // ---------------------------------------------------------------
  // str_pad(s, n, ch, STR_PAD_LEFT)
  // ---------------------------------------------------------------

  function Repeat(c: char, n: nat): (r: string)
    ensures |r| == n && forall i :: 0 <= i < n ==> r[i] == c
  {
    seq(n, _ => c)
  }

  /** Left padding: the text is kept whole and only ever lengthened. */
  function PadLeft(s: string, n: nat, c: char): (r: string)
    ensures |r| == if |s| >= n then |s| else n
    ensures r[|r| - |s|..] == s
    ensures forall i :: 0 <= i < |r| - |s| ==> r[i] == c
  {
    if |s| >= n then s else Repeat(c, n - |s|) + s
  }
}
