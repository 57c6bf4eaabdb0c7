/**
 * The parts of PHP's value semantics that the import engine relies on:
 * dynamically typed values, truthiness (what Collection::filter() keeps), Laravel's
 * blank(), trim(), explode()/implode() on one separator, and the string cast.
 */
module Php {

  /** A PHP value as it flows through rows, field sets, records and metadata.
      Arrays are keyed by string; PHP's integer keys appear as their decimal strings. */
  datatype Value =
    | Null
    | Bool(b: bool)
    | Int(i: int)
    | Str(s: string)
    | Arr(items: map<string, Value>)

  /** The exceptions the core can raise. */
  datatype Error =
    | InvalidArgument(message: string)   // InvalidArgumentException
    | TypeError(message: string)         // TypeError raised under declare(strict_types=1)
    | RuntimeError(message: string)      // RuntimeException

  /** PHP's string truthiness: the empty string and "0" are false. */
  predicate TruthyString(s: string) {
    s != "" && s != "0"
  }

  /** PHP's conversion to bool, the test Collection::filter() applies without a callback. */
  predicate Truthy(v: Value) {
    match v
    case Null => false
    case Bool(b) => b
    case Int(i) => i != 0
    case Str(s) => TruthyString(s)
    case Arr(items) => items != map[]
  }

  /** The characters PHP's trim() strips when given no character list. */
  const Whitespace: set<char> := {' ', '\t', '\n', '\r', '\0', 11 as char}

  /** Laravel's blank(): null, a whitespace-only string and an empty array are blank;
      numbers and booleans never are. */
  predicate Blank(v: Value) {
    match v
    case Null => true
    case Bool(_) => false
    case Int(_) => false
    case Str(s) => Trim(s, Whitespace) == ""
    case Arr(items) => items == map[]
  }

  /** Strips the longest prefix made of characters in cs. */
  function TrimLeft(s: string, cs: set<char>): (r: string)
    ensures |r| <= |s| && r == s[|s| - |r|..]
    ensures forall i :: 0 <= i < |s| - |r| ==> s[i] in cs
    ensures r != [] ==> r[0] !in cs
    decreases |s|
  {
    if s != [] && s[0] in cs then TrimLeft(s[1..], cs) else s
  }

  /** Strips the longest suffix made of characters in cs. */
  function TrimRight(s: string, cs: set<char>): (r: string)
    ensures |r| <= |s| && r == s[..|r|]
    ensures forall i :: |r| <= i < |s| ==> s[i] in cs
    ensures r != [] ==> r[|r| - 1] !in cs
    decreases |s|
  {
    if s != [] && s[|s| - 1] in cs then TrimRight(s[..|s| - 1], cs) else s
  }

  /** PHP's trim($s, $cs): s without a leading and a trailing run of characters in cs; the
      ends of the result are not in cs, and the result is empty exactly when every
      character of s is in cs. */
  function Trim(s: string, cs: set<char>): (r: string)
    ensures |r| <= |s|
    ensures exists i, j ::
              && 0 <= i <= j <= |s| && r == s[i..j]
              && (forall k :: 0 <= k < i ==> s[k] in cs) && (forall k :: j <= k < |s| ==> s[k] in cs)
    ensures r != [] ==> r[0] !in cs && r[|r| - 1] !in cs
    ensures r == [] <==> forall i :: 0 <= i < |s| ==> s[i] in cs
  {
    var left := TrimLeft(s, cs);
    var r := TrimRight(left, cs);
    TrimSpec(s, cs, left, r);
    r
  }

  /** Trim's contract, stated of the two passes it makes: the left pass leaves s from
      i = |s| - |left| on, the right pass a prefix r of that. */
  lemma TrimSpec(s: string, cs: set<char>, left: string, r: string)
    requires |left| <= |s| && left == s[|s| - |left|..]
    requires forall k :: 0 <= k < |s| - |left| ==> s[k] in cs
    requires left != [] ==> left[0] !in cs
    requires |r| <= |left| && r == left[..|r|]
    requires forall k :: |r| <= k < |left| ==> left[k] in cs
    requires r != [] ==> r[|r| - 1] !in cs
    ensures exists i, j ::
              && 0 <= i <= j <= |s| && r == s[i..j]
              && (forall k :: 0 <= k < i ==> s[k] in cs) && (forall k :: j <= k < |s| ==> s[k] in cs)
    ensures r != [] ==> r[0] !in cs && r[|r| - 1] !in cs
    ensures r == [] <==> forall k :: 0 <= k < |s| ==> s[k] in cs
  {
    var i := |s| - |left|;
    TrimEnds(s, left, r, cs);
    TrimInfix(s, i, left, r);
    TrimTrailing(s, i, left, r, cs);
    var j := i + |r|;
    assert 0 <= i <= j <= |s| && r == s[i..j];
  }

  /** The ends of what trim() leaves, and when nothing is left: the left pass leaves s
      from i = |s| - |left| on, the right pass a prefix r of that. */
  lemma TrimEnds(s: string, left: string, r: string, cs: set<char>)
    requires |left| <= |s| && left == s[|s| - |left|..]
    requires forall k :: 0 <= k < |s| - |left| ==> s[k] in cs
    requires left != [] ==> left[0] !in cs
    requires |r| <= |left| && r == left[..|r|]
    requires forall k :: |r| <= k < |left| ==> left[k] in cs
    requires r != [] ==> r[|r| - 1] !in cs
    ensures r != [] ==> r[0] !in cs && r[|r| - 1] !in cs
    ensures r == [] <==> forall k :: 0 <= k < |s| ==> s[k] in cs
  {
    if r != [] {
      assert r[0] == left[0];
    } else {
      forall k | 0 <= k < |s|
        ensures s[k] in cs
      {
      }
    }
  }

  /** A prefix of the suffix of s from i is the infix of s from i. */
  lemma TrimInfix(s: string, i: nat, left: string, r: string)
    requires i <= |s| && left == s[i..]
    requires |r| <= |left| && r == left[..|r|]
    ensures i + |r| <= |s| && r == s[i..i + |r|]
  {
  }

  /** The trailing run trim() strips is made of characters in cs. */
  lemma TrimTrailing(s: string, i: nat, left: string, r: string, cs: set<char>)
    requires i <= |s| && left == s[i..]
    requires |r| <= |left|
    requires forall k :: |r| <= k < |left| ==> left[k] in cs
    ensures forall k :: i + |r| <= k < |s| ==> s[k] in cs
  {
    forall k | i + |r| <= k < |s|
      ensures s[k] in cs
    {
      assert s[k] == left[k - i];
    }
  }

  function DigitChar(d: nat): (c: char)
    requires d < 10
    ensures '0' <= c <= '9' && c as int - '0' as int == d
  {
    ('0' as int + d) as char
  }

  /** The decimal digits of n, without leading zeros. */
  function NatToString(n: nat): (r: string)
    ensures |r| >= 1
    ensures forall i :: 0 <= i < |r| ==> '0' <= r[i] <= '9'
    ensures |r| > 1 ==> r[0] != '0'
    decreases n
  {
    if n < 10 then [DigitChar(n)] else NatToString(n / 10) + [DigitChar(n % 10)]
  }

  /** The number a string of decimal digits denotes. */
  function DigitsValue(s: string): nat
    requires forall i :: 0 <= i < |s| ==> '0' <= s[i] <= '9'
  {
    if s == [] then 0 else 10 * DigitsValue(s[..|s| - 1]) + (s[|s| - 1] as int - '0' as int)
  }

  /** Reading back the digits NatToString writes gives the number again. */
  lemma {:induction false} NatToStringRoundTrip(n: nat)
    ensures DigitsValue(NatToString(n)) == n
    decreases n
  {
    if n >= 10 {
      var r := NatToString(n);
      assert r[..|r| - 1] == NatToString(n / 10);
      NatToStringRoundTrip(n / 10);
    }
  }

  /** The conversion (string) $i for an integer. */
  function IntToString(i: int): (r: string)
    ensures |r| >= 1
  {
    if i < 0 then "-" + NatToString(-i) else NatToString(i)
  }

  /** The string cast (string) $v: null and false are "", true is "1", arrays are "Array". */
  function ToStr(v: Value): string {
    match v
    case Null => ""
    case Bool(b) => if b then "1" else ""
    case Int(i) => IntToString(i)
    case Str(s) => s
    case Arr(_) => "Array"
  }

  /** explode($sep, $s) for a one-character separator. */
  function Explode(s: string, sep: char): (r: seq<string>)
    ensures |r| >= 1
    ensures forall i :: 0 <= i < |r| ==> sep !in r[i]
    decreases |s|
  {
    if s == [] then [[]]
    else
      var rest := Explode(s[1..], sep);
      if s[0] == sep then [[]] + rest else [[s[0]] + rest[0]] + rest[1..]
  }

  /** implode($sep, $parts), i.e. Collection::join for a one-character separator. */
  function Join(parts: seq<string>, sep: char): string
    decreases |parts|
  {
    if parts == [] then [] else if |parts| == 1 then parts[0] else parts[0] + [sep] + Join(parts[1..], sep)
  }

  lemma {:induction false} ExplodeNoSeparator(a: string, sep: char)
    requires sep !in a
    ensures Explode(a, sep) == [a]
    decreases |a|
  {
    if a != [] {
      assert forall c :: c in a[1..] ==> c in a;
      ExplodeNoSeparator(a[1..], sep);
      assert [a[0]] + a[1..] == a;
    }
  }

  lemma {:induction false} ExplodeAtSeparator(a: string, rest: string, sep: char)
    requires sep !in a
    ensures Explode(a + [sep] + rest, sep) == [a] + Explode(rest, sep)
    decreases |a|
  {
    var s := a + [sep] + rest;
    if a == [] {
      assert s[1..] == rest;
    } else {
      assert s[1..] == a[1..] + [sep] + rest;
      assert forall c :: c in a[1..] ==> c in a;
      ExplodeAtSeparator(a[1..], rest, sep);
      assert s[0] == a[0] && a[0] != sep;
      assert [a[0]] + a[1..] == a;
    }
  }

  /** Splitting a join gives the parts back when no part holds the separator. */
  lemma {:induction false} ExplodeJoin(parts: seq<string>, sep: char)
    requires |parts| >= 1
    requires forall i :: 0 <= i < |parts| ==> sep !in parts[i]
    ensures Explode(Join(parts, sep), sep) == parts
    decreases |parts|
  {
    if |parts| == 1 {
      ExplodeNoSeparator(parts[0], sep);
    } else {
      ExplodeJoin(parts[1..], sep);
      ExplodeAtSeparator(parts[0], Join(parts[1..], sep), sep);
      assert [parts[0]] + parts[1..] == parts;
    }
  }

  /** Joining the pieces of a split gives the string back. */
  lemma {:induction false} JoinExplode(s: string, sep: char)
    ensures Join(Explode(s, sep), sep) == s
    decreases |s|
  {
    if s != [] {
      JoinExplode(s[1..], sep);
      var rest := Explode(s[1..], sep);
      if s[0] != sep && |rest| > 1 {
        assert [[s[0]] + rest[0]] + rest[1..] == [[s[0]] + rest[0]] + rest[1..];
        assert rest == [rest[0]] + rest[1..];
      }
    }
  }

  /** Collection::filter() over strings: the truthy pieces, in order. */
  function FilterTruthy(parts: seq<string>): (r: seq<string>)
    ensures |r| <= |parts|
    ensures forall i :: 0 <= i < |r| ==> TruthyString(r[i]) && r[i] in parts
    ensures forall x :: x in r <==> x in parts && TruthyString(x)
    ensures (forall i :: 0 <= i < |parts| ==> TruthyString(parts[i])) ==> r == parts
    decreases |parts|
  {
    if parts == [] then []
    else (if TruthyString(parts[0]) then [parts[0]] else []) + FilterTruthy(parts[1..])
  }

  /** Filtering keeps the order of the pieces: filtering two runs one after the other is
      filtering each and putting them side by side. */
  lemma {:induction false} FilterTruthyAppend(a: seq<string>, b: seq<string>)
    ensures FilterTruthy(a + b) == FilterTruthy(a) + FilterTruthy(b)
    decreases |a|
  {
    if a == [] {
      assert a + b == b;
    } else {
      var ab := a + b;
      assert ab[0] == a[0] && ab[1..] == a[1..] + b;
      FilterTruthyAppend(a[1..], b);
    }
  }

  /** str_starts_with($s, $prefix). */
  predicate StartsWith(s: string, prefix: string) {
    |prefix| <= |s| && s[..|prefix|] == prefix
  }
}
