// PHP values and the array operations of the core: ordered keyed
// arrays, `$a[$k] = $v`, `unset`, `isset`, `??`, array_merge,
// array_values, truthiness, and the string / integer conversions.
module Php {
  import opened Wrappers
  import opened Strings
  import opened Numbers

  datatype Key = IntKey(n: int) | StrKey(s: string)

  /** A PHP value; floats and objects are not part of the model. */
  datatype Value = Null | Bool(b: bool) | Int(i: int) | Str(s: string) | Arr(entries: seq<Entry>)

  datatype Entry = Entry(key: Key, val: Value)

  /** An ordered PHP array. */
  type Dict = seq<Entry>

  /** A string offset that is the canonical text of an integer is an integer key. */
  function KeyOf(s: string): (k: Key)
    ensures k.IntKey? ==> IntToString(k.n) == s
    ensures k.StrKey? ==> k.s == s
  {
    var n := StringToInt(s);
    if IntToString(n) == s then IntKey(n) else StrKey(s)
  }

  /** The text of an array key, as foreach and string interpolation give it. */
  function KeyString(k: Key): string
  {
    match k
    case StrKey(s) => s
    case IntKey(n) => IntToString(n)
  }

  function Keys(d: Dict): (ks: seq<Key>)
    ensures |ks| == |d| && forall i :: 0 <= i < |d| ==> ks[i] == d[i].key
  {
    seq(|d|, i requires 0 <= i < |d| => d[i].key)
  }

  predicate UniqueKeys(d: Dict)
  {
    forall i, j :: 0 <= i < j < |d| ==> d[i].key != d[j].key
  }

  /** The position of key k, or -1. */
  function IndexOfKey(d: Dict, k: Key): (i: int)
    ensures -1 <= i < |d|
    ensures i >= 0 ==> d[i].key == k
    decreases |d|
  {
    if d == [] then -1
    else if d[0].key == k then 0
    else
      var j := IndexOfKey(d[1..], k);
      if j < 0 then -1 else j + 1
  }

  /** The position found is the first with key k, and a miss means no entry has key k. */
  lemma {:induction false} IndexOfKeyFirst(d: Dict, k: Key)
    ensures IndexOfKey(d, k) >= 0 ==> forall j :: 0 <= j < IndexOfKey(d, k) ==> d[j].key != k
    ensures IndexOfKey(d, k) < 0 ==> forall j :: 0 <= j < |d| ==> d[j].key != k
    decreases |d|
  {
    if d != [] && d[0].key != k {
      IndexOfKeyFirst(d[1..], k);
      assert forall j :: 1 <= j < |d| ==> d[j] == d[1..][j - 1];
    }
  }

  predicate HasKey(d: Dict, k: Key) { IndexOfKey(d, k) >= 0 }

  /** `$d[$k]` without a notice: None when the key is absent. */
  function Lookup(d: Dict, k: Key): (r: Option<Value>)
    ensures r.Some? <==> HasKey(d, k)
    ensures r.Some? ==> Entry(k, r.value) in d
  {
    var i := IndexOfKey(d, k);
    if i < 0 then None else Some(d[i].val)
  }

  /** A lookup finds the first entry with the key. */
  lemma LookupFirst(d: Dict, i: int)
    requires 0 <= i < |d| && forall j :: 0 <= j < i ==> d[j].key != d[i].key
    ensures Lookup(d, d[i].key) == Some(d[i].val)
  {
    IndexOfKeyFirst(d, d[i].key);
    assert IndexOfKey(d, d[i].key) >= 0;
  }

  /** A lookup reads the first entry, or goes on past it. */
  lemma LookupCons(d: Dict, k: Key)
    requires d != []
    ensures Lookup(d, k) == if d[0].key == k then Some(d[0].val) else Lookup(d[1..], k)
  {
    if d[0].key != k {
      var j := IndexOfKey(d[1..], k);
      assert IndexOfKey(d, k) == if j < 0 then -1 else j + 1;
    }
  }

  /** `isset($d[$k])`: present and not null. */
  predicate Isset(d: Dict, k: Key)
  {
    Lookup(d, k).Some? && Lookup(d, k).value != Null
  }

  /** `$d[$k] ?? $default`. */
  function Coalesce(d: Dict, k: Key, default: Value): (r: Value)
    ensures Isset(d, k) ==> r == Lookup(d, k).value
    ensures !Isset(d, k) ==> r == default
  {
    match Lookup(d, k)
    case Some(v) => if v != Null then v else default
    case None => default
  }

  /** `$d[$k] = $v`: an existing key keeps its position, a new key goes last. */
  function Put(d: Dict, k: Key, v: Value): (r: Dict)
    ensures HasKey(d, k) ==> |r| == |d| && Keys(r) == Keys(d)
    ensures !HasKey(d, k) ==> r == d + [Entry(k, v)]
    ensures Lookup(r, k) == Some(v)
    ensures forall k' :: k' != k ==> Lookup(r, k') == Lookup(d, k')
  {
    var i := IndexOfKey(d, k);
    if i < 0 then
      assert forall k' :: k' != k ==> IndexOfKey(d + [Entry(k, v)], k') == IndexOfKey(d, k') by {
        forall k' | k' != k ensures IndexOfKey(d + [Entry(k, v)], k') == IndexOfKey(d, k') {
          IndexOfKeyAppend(d, Entry(k, v), k');
        }
      }
      IndexOfKeyAppend(d, Entry(k, v), k);
      d + [Entry(k, v)]
    else
      var r := d[i := Entry(k, v)];
      assert forall j :: 0 <= j < |d| ==> r[j].key == d[j].key;
      IndexOfKeySameKeys(d, r, k);
      assert forall k' :: k' != k ==> IndexOfKey(r, k') == IndexOfKey(d, k') by {
        forall k' | k' != k ensures IndexOfKey(r, k') == IndexOfKey(d, k') {
          IndexOfKeySameKeys(d, r, k');
        }
      }
      r
  }

  /** Setting a key keeps the keys distinct. */
  lemma PutUnique(d: Dict, k: Key, v: Value)
    requires UniqueKeys(d)
    ensures UniqueKeys(Put(d, k, v))
  {
    var r := Put(d, k, v);
    if HasKey(d, k) {
      assert forall j :: 0 <= j < |r| ==> r[j].key == Keys(r)[j] == Keys(d)[j] == d[j].key;
    } else {
      IndexOfKeyFirst(d, k);
    }
  }

  lemma {:induction false} IndexOfKeyAppend(d: Dict, e: Entry, k: Key)
    ensures IndexOfKey(d + [e], k) ==
      (if IndexOfKey(d, k) >= 0 then IndexOfKey(d, k) else if e.key == k then |d| else -1)
    decreases |d|
  {
    if d != [] {
      assert (d + [e])[1..] == d[1..] + [e];
      IndexOfKeyAppend(d[1..], e, k);
    }
  }

  lemma {:induction false} IndexOfKeySameKeys(d: Dict, r: Dict, k: Key)
    requires |d| == |r|
    requires forall j :: 0 <= j < |d| ==> r[j].key == d[j].key
    ensures IndexOfKey(r, k) == IndexOfKey(d, k)
    decreases |d|
  {
    if d != [] {
      IndexOfKeySameKeys(d[1..], r[1..], k);
    }
  }

  /** `unset($d[$k])`: the other entries stay, in their order. */
  function Remove(d: Dict, k: Key): (r: Dict)
    ensures forall e :: e in r <==> e in d && e.key != k
    decreases |d|
  {
    if d == [] then []
    else if d[0].key == k then Remove(d[1..], k)
    else [d[0]] + Remove(d[1..], k)
  }

  /** After unset the key is absent and every other key reads as before. */
  lemma {:induction false} RemoveLookup(d: Dict, k: Key, k': Key)
    ensures Lookup(Remove(d, k), k') == if k' == k then None else Lookup(d, k')
    decreases |d|
  {
    if d != [] {
      RemoveLookup(d[1..], k, k');
      LookupCons(d, k');
      if d[0].key != k {
        var r := [d[0]] + Remove(d[1..], k);
        assert Remove(d, k) == r;
        assert r[0] == d[0] && r[1..] == Remove(d[1..], k);
        LookupCons(r, k');
      } else {
        assert Remove(d, k) == Remove(d[1..], k);
      }
    }
  }

  /** `$d[$k1] = $v1; $d[$k2] = $v2; ...` in order. */
  function Assign(acc: Dict, es: seq<Entry>): Dict
    decreases |es|
  {
    if es == [] then acc else Assign(Put(acc, es[0].key, es[0].val), es[1..])
  }

  /**
   * An array literal `[k1 => v1, k2 => v2, ...]`: a repeated key keeps the
   * position of its first occurrence and the value of its last.
   */
  function Literal(es: seq<Entry>): Dict
  {
    Assign([], es)
  }

  lemma {:induction false} AssignAppend(acc: Dict, a: seq<Entry>, b: seq<Entry>)
    ensures Assign(acc, a + b) == Assign(Assign(acc, a), b)
    decreases |a|
  {
    if a != [] {
      var ab := a + b;
      assert ab != [] && ab[0] == a[0] && ab[1..] == a[1..] + b;
      AssignAppend(Put(acc, a[0].key, a[0].val), a[1..], b);
    } else {
      assert a + b == b;
    }
  }

  /** A key reads as its last assignment, or as before when never assigned. */
  lemma {:induction false} AssignLookup(acc: Dict, es: seq<Entry>, k: Key)
    ensures Lookup(Assign(acc, es), k) == if HasKey(es, k) then LastValue(es, k) else Lookup(acc, k)
    decreases |es|
  {
    if es != [] {
      AssignLookup(Put(acc, es[0].key, es[0].val), es[1..], k);
    }
  }

  lemma {:induction false} AssignUnique(acc: Dict, es: seq<Entry>)
    requires UniqueKeys(acc)
    ensures UniqueKeys(Assign(acc, es))
    decreases |es|
  {
    if es != [] {
      PutUnique(acc, es[0].key, es[0].val);
      AssignUnique(Put(acc, es[0].key, es[0].val), es[1..]);
    }
  }

  /** Every element of the result was already there or was assigned. */
  lemma {:induction false} AssignEntries(acc: Dict, es: seq<Entry>)
    ensures forall e :: e in Assign(acc, es) ==> e in acc || e in es
    decreases |es|
  {
    if es != [] {
      var d := Put(acc, es[0].key, es[0].val);
      AssignEntries(d, es[1..]);
      PutEntries(acc, es[0].key, es[0].val);
    }
  }

  lemma PutEntries(d: Dict, k: Key, v: Value)
    ensures forall e :: e in Put(d, k, v) ==> e in d || e == Entry(k, v)
  {
    var i := IndexOfKey(d, k);
    if i >= 0 {
      var r := d[i := Entry(k, v)];
      forall e | e in r ensures e in d || e == Entry(k, v) {
        var j :| 0 <= j < |r| && r[j] == e;
        if j != i {
          assert d[j] == e;
        }
      }
    }
  }

  /** The array has a key iff it had it before or assigned it. */
  lemma AssignKeys(acc: Dict, es: seq<Entry>, k: Key)
    ensures HasKey(Assign(acc, es), k) <==> HasKey(acc, k) || HasKey(es, k)
  {
    AssignLookup(acc, es, k);
  }

  /** Assigning a key the array lacks appends it. */
  lemma PutNew(d: Dict, e: Entry)
    requires forall i :: 0 <= i < |d| ==> d[i].key != e.key
    ensures Put(d, e.key, e.val) == d + [e]
  {
    if HasKey(d, e.key) {
      var i := IndexOfKey(d, e.key);
      assert d[i].key == e.key;
    }
  }

  /** Re-assigning the values an array already holds leaves it unchanged. */
  lemma {:induction false} AssignHeld(acc: Dict, es: seq<Entry>)
    requires forall i :: 0 <= i < |es| ==> Lookup(acc, es[i].key) == Some(es[i].val)
    ensures Assign(acc, es) == acc
    decreases |es|
  {
    if es != [] {
      var i := IndexOfKey(acc, es[0].key);
      assert acc[i] == es[0];
      assert acc[i := es[0]] == acc;
      AssignHeld(acc, es[1..]);
    }
  }

  lemma AppendTail(a: Dict, b: Dict)
    requires a != []
    ensures (a + b)[0] == a[0] && (a + b)[1..] == a[1..] + b
  {
  }

  /** A list: keys 0, 1, 2, ... */
  function ListOf(items: seq<Value>): (d: Dict)
    ensures |d| == |items|
    ensures forall i :: 0 <= i < |items| ==> d[i] == Entry(IntKey(i), items[i])
  {
    seq(|items|, i requires 0 <= i < |items| => Entry(IntKey(i), items[i]))
  }

  /** array_values. */
  function Values(d: Dict): (vs: seq<Value>)
    ensures |vs| == |d| && forall i :: 0 <= i < |d| ==> vs[i] == d[i].val
  {
    seq(|d|, i requires 0 <= i < |d| => d[i].val)
  }

  /**
   * The loop inside array_merge: integer keys are renumbered from n in
   * order, string keys are assigned (a repeated key keeps its first
   * position and takes the later value).
   */
  function MergeInto(acc: Dict, n: int, es: seq<Entry>): Dict
    decreases |es|
  {
    if es == [] then acc
    else match es[0].key
      case IntKey(_) => MergeInto(Put(acc, IntKey(n), es[0].val), n + 1, es[1..])
      case StrKey(_) => MergeInto(Put(acc, es[0].key, es[0].val), n, es[1..])
  }

  /** array_merge(a, b). */
  function Merge(a: Dict, b: Dict): Dict
  {
    MergeInto([], 0, a + b)
  }

  /** The value of the last entry under key k, if any. */
  function LastValue(es: seq<Entry>, k: Key): (r: Option<Value>)
    ensures r.Some? <==> HasKey(es, k)
    decreases |es|
  {
    if es == [] then None
    else
      var later := LastValue(es[1..], k);
      if later.Some? then later
      else if es[0].key == k then Some(es[0].val)
      else None
  }

  lemma {:induction false} MergeIntoStringKey(acc: Dict, n: int, es: seq<Entry>, s: string)
    ensures Lookup(MergeInto(acc, n, es), StrKey(s)) ==
      (if HasKey(es, StrKey(s)) then LastValue(es, StrKey(s)) else Lookup(acc, StrKey(s)))
    decreases |es|
  {
    if es != [] {
      var next := match es[0].key
        case IntKey(_) => Put(acc, IntKey(n), es[0].val)
        case StrKey(_) => Put(acc, es[0].key, es[0].val);
      var n' := if es[0].key.IntKey? then n + 1 else n;
      assert MergeInto(acc, n, es) == MergeInto(next, n', es[1..]);
      MergeIntoStringKey(next, n', es[1..], s);
    }
  }

  lemma {:induction false} LastValueUnique(es: seq<Entry>, k: Key)
    requires UniqueKeys(es)
    ensures LastValue(es, k) == Lookup(es, k)
    decreases |es|
  {
    if es != [] {
      LastValueUnique(es[1..], k);
      if es[0].key == k {
        assert forall j :: 0 <= j < |es| - 1 ==> es[1..][j].key != k;
      }
    }
  }

  lemma {:induction false} LookupAppend(a: Dict, b: Dict, k: Key)
    ensures Lookup(a + b, k) == if HasKey(a, k) then Lookup(a, k) else Lookup(b, k)
    decreases |a|
  {
    if a == [] {
      assert a + b == b;
    } else {
      assert (a + b)[1..] == a[1..] + b;
      LookupAppend(a[1..], b, k);
    }
  }

  lemma {:induction false} LastValueAppend(a: Dict, b: Dict, k: Key)
    ensures LastValue(a + b, k) == if HasKey(b, k) then LastValue(b, k) else LastValue(a, k)
    decreases |a|
  {
    if a == [] {
      assert a + b == b;
    } else {
      assert (a + b)[1..] == a[1..] + b;
      LastValueAppend(a[1..], b, k);
      LookupAppend(a[1..], b, k);
    }
  }

  /**
   * array_merge with string keys: a key of b wins, a key only in a keeps
   * a's value, a key in neither stays absent.
   */
  lemma MergeStringKey(a: Dict, b: Dict, s: string)
    requires UniqueKeys(a) && UniqueKeys(b)
    ensures Lookup(Merge(a, b), StrKey(s)) ==
      (if HasKey(b, StrKey(s)) then Lookup(b, StrKey(s)) else Lookup(a, StrKey(s)))
  {
    MergeIntoStringKey([], 0, a + b, s);
    LastValueAppend(a, b, StrKey(s));
    LookupAppend(a, b, StrKey(s));
    LastValueUnique(a, StrKey(s));
    LastValueUnique(b, StrKey(s));
  }

  // ---------------------------------------------------------------
  // Conversions
  // ---------------------------------------------------------------

  /** PHP truthiness: what `if ($v)` tests and `empty($v)` negates. */
  predicate Truthy(v: Value)
  {
    match v
    case Null => false
    case Bool(b) => b
    case Int(i) => i != 0
    case Str(s) => s != "" && s != "0"
    case Arr(es) => es != []
  }

  /** `empty($d[$k])`. */
  predicate EmptyAt(d: Dict, k: Key)
  {
    !Isset(d, k) || !Truthy(Lookup(d, k).value)
  }

  /** String conversion, as in interpolation. */
  function ToStr(v: Value): string
  {
    match v
    case Null => ""
    case Bool(b) => if b then "1" else ""
    case Int(i) => IntToString(i)
    case Str(s) => s
    case Arr(_) => "Array"
  }

  /** The (int) cast: a string gives its leading number, truncated and saturated to 64 bits. */
  function ToInt(v: Value): int
  {
    match v
    case Null => 0
    case Bool(b) => if b then 1 else 0
    case Int(i) => i
    case Str(s) => CastToInt(s)
    case Arr(es) => if es == [] then 0 else 1
  }

  /** is_numeric: an integer, or a string that is numeric as a whole; floats are not part of the model. */
  predicate IsNumeric(v: Value)
  {
    match v
    case Int(_) => true
    case Str(s) => IsNumericText(s)
    case _ => false
  }

  /**
   * PHP 7's loose `==`: booleans and null by truthiness (null against a
   * string by the empty string), an integer against a string by the
   * string's leading number (0 when it has none), two strings by value
   * when both are numeric and by text otherwise; arrays are equal only
   * when identical and never equal an integer or a string.
   */
  predicate LooseEquals(a: Value, b: Value)
  {
    match (a, b)
    case (Null, Null) => true
    case (Bool(x), _) => x == Truthy(b)
    case (_, Bool(y)) => Truthy(a) == y
    case (Null, Str(t)) => t == ""
    case (Str(s), Null) => s == ""
    case (Null, _) => !Truthy(b)
    case (_, Null) => !Truthy(a)
    case (Int(i), Int(j)) => i == j
    case (Int(i), Str(t)) => i as real == LeadingValue(t)
    case (Str(s), Int(j)) => LeadingValue(s) == j as real
    case (Str(s), Str(t)) =>
      if IsNumericText(s) && IsNumericText(t) then LeadingValue(s) == LeadingValue(t) else s == t
    case (Arr(x), Arr(y)) => x == y
    case _ => false
  }

  /** `in_array($v, $list)` for a list of string constants. */
  predicate InList(v: Value, list: seq<string>)
  {
    exists t :: t in list && LooseEquals(v, Str(t))
  }

  /** A constant that starts with a lower-case letter, as every status and role name does. */
  predicate LetterFirst(t: string)
  {
    t != [] && 'a' <= t[0] <= 'z'
  }

  /** Such a constant is not numeric and its leading number is 0. */
  lemma LetterFirstText(t: string)
    requires LetterFirst(t)
    ensures !IsNumericText(t) && LeadingValue(t) == 0.0
  {
    NoNumberText(t);
  }

  /** A string is in a list of letter-first constants exactly when it is one of them. */
  lemma InListString(s: string, list: seq<string>)
    requires forall t :: t in list ==> LetterFirst(t)
    ensures InList(Str(s), list) <==> s in list
  {
    if s in list {
      assert LooseEquals(Str(s), Str(s)) by {
        LetterFirstText(s);
      }
    }
    forall t | t in list && LooseEquals(Str(s), Str(t))
      ensures s == t
    {
      LetterFirstText(t);
    }
  }

  /** An integer is in a non-empty list of letter-first constants exactly when it is 0. */
  lemma InListInt(i: int, list: seq<string>)
    requires forall t :: t in list ==> LetterFirst(t)
    ensures InList(Int(i), list) <==> i == 0 && list != []
  {
    if i == 0 && list != [] {
      LetterFirstText(list[0]);
      assert LooseEquals(Int(i), Str(list[0]));
    }
    forall t | t in list && LooseEquals(Int(i), Str(t))
      ensures i == 0
    {
      LetterFirstText(t);
    }
  }
}
