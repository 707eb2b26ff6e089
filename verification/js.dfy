/** JavaScript values as they cross the wire: the JSON data model that
    JSON.parse produces, property reads on those values, and the string
    conversion that a template literal `${v}` applies to them. */
module Js {

  datatype Option<+T> = None | Some(value: T)

  /** A value JSON.parse can produce. Numbers are restricted to integers. */
  datatype Json =
    | Null
    | Bool(b: bool)
    | Num(n: int)
    | Str(s: string)
    | Arr(items: seq<Json>)
    | Obj(fields: map<string, Json>)

  /** `v.key` for the keys the protocol reads (id, method, arguments, status,
      result, error, code, message): an own field of an object, and
      `undefined` (None) on every other value. No primitive, array or plain
      object inherits one of these names. Reading a property of `null`
      throws; callers test for Null before reading. */
  function Get(v: Json, key: string): Option<Json>
  {
    if v.Obj? && key in v.fields then Some(v.fields[key]) else None
  }

  /** `a ?? b`: the default replaces `undefined` and `null`. */
  function OrElse(v: Option<Json>, default: Json): Json
  {
    if v.Some? && v.value != Null then v.value else default
  }

  /* ---------------------------------------------------------------------
     Decimal text of integers, as String(n) writes it, and its parser.
     --------------------------------------------------------------------- */

  predicate IsDigit(c: char) { '0' <= c <= '9' }

  predicate IsDigits(s: string)
  {
    |s| > 0 && forall i :: 0 <= i < |s| ==> IsDigit(s[i])
  }

  function DigitChar(d: nat): (c: char)
    requires d < 10
    ensures IsDigit(c) && c as int - '0' as int == d
  {
    ('0' as int + d) as char
  }

  /** Decimal digits of a natural number, most significant first, without
      leading zeros. */
  function NatText(n: nat): (r: string)
    ensures IsDigits(r)
    ensures r[0] == '0' ==> n == 0
  {
    if n < 10 then [DigitChar(n)] else NatText(n / 10) + [DigitChar(n % 10)]
  }

  /** String(n) for an integer n. */
  function IntText(n: int): string
  {
    if n < 0 then "-" + NatText(-n) else NatText(n)
  }

  function ParseNat(s: string): nat
    requires forall i :: 0 <= i < |s| ==> IsDigit(s[i])
  {
    if |s| == 0 then 0
    else ParseNat(s[..|s| - 1]) * 10 + DigitValue(s[|s| - 1])
  }

  function DigitValue(c: char): (d: nat)
    requires IsDigit(c)
    ensures d < 10
  {
    c as int - '0' as int
  }

  /** Reads an optionally signed decimal integer back. */
  function ParseInt(s: string): Option<int>
  {
    if |s| > 1 && s[0] == '-' && IsDigits(s[1..]) then Some(0 - ParseNat(s[1..]) as int)
    else if IsDigits(s) then Some(ParseNat(s))
    else None
  }

  lemma {:induction false} NatTextRoundTrip(n: nat)
    ensures ParseNat(NatText(n)) == n
  {
    if n >= 10 {
      NatTextRoundTrip(n / 10);
      var t := NatText(n / 10);
      var s := t + [DigitChar(n % 10)];
      assert s[..|s| - 1] == t;
    }
  }

  /** The decimal text of an integer reads back as that integer, so two
      different integers never share a text. */
  lemma IntTextRoundTrip(n: int)
    ensures ParseInt(IntText(n)) == Some(n)
  {
    if n < 0 {
      var t := NatText(-n);
      NatTextRoundTrip(-n);
      assert ("-" + t)[1..] == t;
    } else {
      NatTextRoundTrip(n);
    }
  }

  lemma IntTextInjective(a: int, b: int)
    ensures IntText(a) == IntText(b) ==> a == b
  {
    IntTextRoundTrip(a);
    IntTextRoundTrip(b);
  }

  /* ---------------------------------------------------------------------
     Joining and splitting text.
     --------------------------------------------------------------------- */

  /** Array.prototype.join: the parts with the separator between them. */
  function Join(parts: seq<string>, sep: string): string
  {
    if |parts| == 0 then ""
    else if |parts| == 1 then parts[0]
    else parts[0] + sep + Join(parts[1..], sep)
  }

  /** The position of the first c in s, or |s| when there is none. */
  function IndexOf(s: string, c: char): (k: nat)
    ensures k <= |s|
    ensures forall i :: 0 <= i < k ==> s[i] != c
    ensures k < |s| ==> s[k] == c
  {
    if |s| == 0 then 0
    else if s[0] == c then 0
    else 1 + IndexOf(s[1..], c)
  }

  /** The first c in a + [c] + b is the one after a, when a has none. */
  lemma IndexOfAfter(a: string, c: char, b: string)
    requires c !in a
    ensures IndexOf(a + [c] + b, c) == |a|
  {
    var s := a + [c] + b;
    var k := IndexOf(s, c);
    assert s[|a|] == c;
    assert forall i :: 0 <= i < |a| ==> s[i] == a[i];
  }

  /** String.prototype.split with a one-character separator. */
  function Split(s: string, c: char): (parts: seq<string>)
    ensures |parts| > 0
    decreases |s|
  {
    var k := IndexOf(s, c);
    if k == |s| then [s] else [s[..k]] + Split(s[k + 1..], c)
  }

  /** Splitting a joined list at the separator gives the parts back, as long
      as no part contains the separator itself. */
  lemma {:induction false} SplitJoin(parts: seq<string>, c: char)
    requires |parts| > 0
    requires forall i :: 0 <= i < |parts| ==> c !in parts[i]
    ensures Split(Join(parts, [c]), c) == parts
  {
    if |parts| > 1 {
      var rest := Join(parts[1..], [c]);
      var s := parts[0] + [c] + rest;
      assert Join(parts, [c]) == s;
      IndexOfAfter(parts[0], c, rest);
      assert s[..|parts[0]|] == parts[0];
      assert s[|parts[0]| + 1..] == rest;
      SplitJoin(parts[1..], c);
      assert [parts[0]] + parts[1..] == parts;
    }
  }

  /* ---------------------------------------------------------------------
     `${v}`: the string a template literal makes of a value.
     --------------------------------------------------------------------- */

  /** String(v) for a JSON value: arrays join their elements with commas
      (a null element contributes nothing) and plain objects become
      "[object Object]". */
  function JsonText(v: Json): string
  {
    match v
    case Null => "null"
    case Bool(b) => if b then "true" else "false"
    case Num(n) => IntText(n)
    case Str(s) => s
    case Arr(items) =>
      Join(seq(|items|, i requires 0 <= i < |items| =>
                 if items[i].Null? then "" else JsonText(items[i])), ",")
    case Obj(_) => "[object Object]"
  }

  /** `${v}` where v may be `undefined` (None). */
  function Text(v: Option<Json>): string
  {
    match v
    case None => "undefined"
    case Some(j) => JsonText(j)
  }

  /** Two integers, or two strings, have the same text only when they are
      equal; a string and a number can share one ("5" and 5). */
  lemma TextInjectiveOnKind(a: Json, b: Json)
    requires (a.Num? && b.Num?) || (a.Str? && b.Str?)
    ensures Text(Some(a)) == Text(Some(b)) ==> a == b
  {
    if a.Num? {
      IntTextInjective(a.n, b.n);
    }
  }

  lemma StringAndNumberShareText()
    ensures Text(Some(Str("5"))) == Text(Some(Num(5)))
  {
  }
}
