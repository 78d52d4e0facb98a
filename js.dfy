/**
 * The slice of JavaScript semantics the relay depends on: values as they come out of
 * JSON parsing (plus `undefined`), truthiness, the value-returning `&&` and `||`
 * operators, property reads, and the string and number built-ins the relay calls
 * (`split`, `trim`, `startsWith`, `parseInt`, number-to-string conversion).
 */
module Js {
  import opened Wrappers

  // ---------------------------------------------------------------------------
  // Values
  // ---------------------------------------------------------------------------

  /** A JavaScript value: a parsed JSON value, or `undefined` for an absent property. */
  datatype Value =
    | Undefined
    | Null
    | Bool(b: bool)
    | Num(n: real)
    | Str(s: string)
    | Arr(items: seq<Value>)
    | Obj(fields: map<string, Value>)

  /** A thrown JavaScript error, reduced to its `name` and `message`. */
  datatype Error = Error(name: string, message: string)

  /** How a call finished: it returned normally, or it threw. */
  datatype Completion = Returned | Threw(error: Error)

  /** `new Error(message)`. */
  function Thrown(message: string): (e: Error)
    ensures e.name == "Error" && e.message == message
  {
    Error("Error", message)
  }

  /** The TypeError V8 raises when property `key` is read from null or undefined. */
  function PropertyReadError(holder: Value, key: string): (e: Error)
    requires holder == Null || holder == Undefined
    ensures e.name == "TypeError"
  {
    Error("TypeError", "Cannot read properties of " + (if holder == Null then "null" else "undefined")
                       + " (reading '" + key + "')")
  }

  /** ToBoolean: the falsy values are undefined, null, false, 0 and the empty string. */
  predicate Truthy(v: Value) {
    match v
    case Undefined => false
    case Null => false
    case Bool(b) => b
    case Num(n) => n != 0.0
    case Str(s) => s != ""
    case Arr(_) => true
    case Obj(_) => true
  }

  /** `a && b`: the first operand when it is falsy, otherwise the second. */
  function And(a: Value, b: Value): (r: Value)
    ensures Truthy(r) <==> Truthy(a) && Truthy(b)
    ensures r == a || r == b
  {
    if Truthy(a) then b else a
  }

  /** `a || b`: the first operand when it is truthy, otherwise the second. */
  function Or(a: Value, b: Value): (r: Value)
    ensures Truthy(r) <==> Truthy(a) || Truthy(b)
    ensures r == a || r == b
  {
    if Truthy(a) then a else b
  }

  /**
   * `v?.key`: an object's own property, `undefined` when the object lacks it and for
   * every other kind of value (the relay never reads a property of an array or a
   * string other than its length and its first element, modelled below).
   */
  function Get(v: Value, key: string): (r: Value)
    ensures v.Obj? && key in v.fields ==> r == v.fields[key]
    ensures !(v.Obj? && key in v.fields) ==> r == Undefined
  {
    match v
    case Obj(f) => if key in f then f[key] else Undefined
    case _ => Undefined
  }

  /** `v.key` without optional chaining: throws a TypeError on null and undefined. */
  function ReadProperty(v: Value, key: string): (r: Result<Value, Error>)
    ensures r.Failure? <==> v == Null || v == Undefined
    ensures r.Success? ==> r.value == Get(v, key)
  {
    if v == Null || v == Undefined then Failure(PropertyReadError(v, key)) else Success(Get(v, key))
  }

  /** `typeof v === 'object'` (true of null, arrays and objects). */
  predicate TypeofObject(v: Value) {
    v.Null? || v.Arr? || v.Obj?
  }

  /** `Array.isArray(v)`. */
  predicate IsArray(v: Value) {
    v.Arr?
  }

  /** `v[0]` for a value that is neither null nor undefined. */
  function FirstElement(v: Value): (r: Value)
    ensures v.Arr? && |v.items| > 0 ==> r == v.items[0]
    ensures v.Str? ==> r == Undefined || r.Str?
  {
    match v
    case Arr(items) => if |items| > 0 then items[0] else Undefined
    case Str(s) => if |s| > 0 then Str([s[0]]) else Undefined
    case Obj(_) => Get(v, "0")
    case _ => Undefined
  }

  // ---------------------------------------------------------------------------
  // Strings
  // ---------------------------------------------------------------------------

  /** The characters `trim` and `parseInt` skip: WhiteSpace and LineTerminator of ECMA-262. */
  predicate IsJsSpace(c: char) {
    || c == '\t' || c == '\n' || c == '\U{000B}' || c == '\U{000C}' || c == '\r' || c == ' '
    || c == '\U{00A0}' || c == '\U{1680}' || ('\U{2000}' <= c <= '\U{200A}')
    || c == '\U{2028}' || c == '\U{2029}' || c == '\U{202F}' || c == '\U{205F}'
    || c == '\U{3000}' || c == '\U{FEFF}'
  }

  /** `s.trimStart()`: the suffix left after dropping the leading spaces. */
  function TrimStart(s: string): string
    decreases |s|
  {
    if s != [] && IsJsSpace(s[0]) then TrimStart(s[1..]) else s
  }

  /** `s.trimEnd()`: the prefix left after dropping the trailing spaces. */
  function TrimEnd(s: string): string
    decreases |s|
  {
    if s != [] && IsJsSpace(s[|s| - 1]) then TrimEnd(s[..|s| - 1]) else s
  }

  /** What `trimStart` leaves: a suffix that does not start with a space. */
  lemma {:induction false} TrimStartSuffix(s: string)
    ensures var t := TrimStart(s);
            && |t| <= |s| && t == s[|s| - |t|..]
            && (t != [] ==> !IsJsSpace(t[0]))
    decreases |s|
  {
    if s != [] && IsJsSpace(s[0]) {
      TrimStartSuffix(s[1..]);
      var t := TrimStart(s);
      assert s[1..][|s[1..]| - |t|..] == s[|s| - |t|..];
    }
  }

  /** What `trimStart` drops: only spaces. */
  lemma {:induction false} TrimStartDropsSpaces(s: string)
    ensures forall i :: 0 <= i < |s| - |TrimStart(s)| ==> IsJsSpace(s[i])
    decreases |s|
  {
    if s != [] && IsJsSpace(s[0]) {
      TrimStartDropsSpaces(s[1..]);
      forall i | 1 <= i < |s| - |TrimStart(s)| ensures IsJsSpace(s[i]) {
        assert s[i] == s[1..][i - 1];
      }
    }
  }

  /** What `trimEnd` leaves: a prefix that does not end with a space. */
  lemma {:induction false} TrimEndPrefix(s: string)
    ensures var t := TrimEnd(s);
            && |t| <= |s| && t == s[..|t|]
            && (t != [] ==> !IsJsSpace(t[|t| - 1]))
    decreases |s|
  {
    if s != [] && IsJsSpace(s[|s| - 1]) {
      TrimEndPrefix(s[..|s| - 1]);
      var t := TrimEnd(s);
      assert s[..|s| - 1][..|t|] == s[..|t|];
    }
  }

  /** What `trimEnd` drops: only spaces. */
  lemma {:induction false} TrimEndDropsSpaces(s: string)
    ensures forall i :: |TrimEnd(s)| <= i < |s| ==> IsJsSpace(s[i])
    decreases |s|
  {
    if s != [] && IsJsSpace(s[|s| - 1]) {
      TrimEndDropsSpaces(s[..|s| - 1]);
      forall i | |TrimEnd(s)| <= i < |s| - 1 ensures IsJsSpace(s[i]) {
        assert s[i] == s[..|s| - 1][i];
      }
    }
  }

  /** `s.trim()`. */
  function Trim(s: string): string {
    TrimEnd(TrimStart(s))
  }

  /** `s.startsWith(prefix)`. */
  predicate StartsWith(s: string, prefix: string) {
    |prefix| <= |s| && s[..|prefix|] == prefix
  }

  /** `s.split(sep)` for a one-character separator: always at least one part. */
  function Split(s: string, sep: char): (parts: seq<string>)
    ensures |parts| >= 1
    decreases |s|
  {
    if s == [] then [""]
    else
      var rest := Split(s[1..], sep);
      if s[0] == sep then [""] + rest else [[s[0]] + rest[0]] + rest[1..]
  }

  /** `parts.join(sep)`, the inverse of Split. */
  function Join(parts: seq<string>, sep: char): string
    requires |parts| >= 1
    decreases |parts|
  {
    if |parts| == 1 then parts[0] else parts[0] + [sep] + Join(parts[1..], sep)
  }

  /** Splitting and joining again gives back the string, and no part holds the separator. */
  lemma {:induction false} SplitJoin(s: string, sep: char)
    ensures Join(Split(s, sep), sep) == s
    ensures forall k :: 0 <= k < |Split(s, sep)| ==> sep !in Split(s, sep)[k]
    decreases |s|
  {
    if s != [] {
      SplitJoin(s[1..], sep);
      var rest := Split(s[1..], sep);
      if s[0] == sep {
        assert Split(s, sep) == [""] + rest;
        assert ([""] + rest)[1..] == rest;
        if |rest| == 1 {
          assert Join([""] + rest, sep) == "" + [sep] + rest[0];
        }
      } else {
        var parts := [[s[0]] + rest[0]] + rest[1..];
        assert Split(s, sep) == parts;
        if |rest| > 1 {
          assert parts[1..] == rest[1..];
          assert Join(rest, sep) == rest[0] + [sep] + Join(rest[1..], sep);
        }
        assert s == [s[0]] + s[1..];
      }
    }
  }

  /** A string without the separator splits into itself alone. */
  lemma {:induction false} SplitWithoutSeparator(s: string, sep: char)
    requires sep !in s
    ensures Split(s, sep) == [s]
    decreases |s|
  {
    if s != [] {
      assert sep !in s[1..] by {
        forall k | 0 <= k < |s[1..]| ensures s[1..][k] != sep {
          assert s[1..][k] == s[k + 1];
        }
      }
      SplitWithoutSeparator(s[1..], sep);
      assert [s[0]] + s[1..] == s;
    }
  }

  // ---------------------------------------------------------------------------
  // Numbers
  // ---------------------------------------------------------------------------

  predicate IsDigit(c: char) {
    '0' <= c <= '9'
  }

  predicate AllDigits(d: string) {
    forall i :: 0 <= i < |d| ==> IsDigit(d[i])
  }

  function DigitValue(c: char): (v: nat)
    requires IsDigit(c)
    ensures v < 10
  {
    (c as int) - ('0' as int)
  }

  function DigitChar(v: nat): (c: char)
    requires v < 10
    ensures IsDigit(c) && DigitValue(c) == v
  {
    ('0' as int + v) as char
  }

  /** The longest prefix of `s` made of decimal digits. */
  function DigitPrefix(s: string): (d: string)
    ensures |d| <= |s| && d == s[..|d|] && AllDigits(d)
    ensures |d| < |s| ==> !IsDigit(s[|d|])
  {
    if s != [] && IsDigit(s[0]) then [s[0]] + DigitPrefix(s[1..]) else ""
  }

  /** The number a string of decimal digits denotes. */
  function DigitsValue(d: string): nat
    requires AllDigits(d)
  {
    if d == [] then 0 else DigitsValue(d[..|d| - 1]) * 10 + DigitValue(d[|d| - 1])
  }

  /**
   * `parseInt(s, 10)`: leading spaces skipped, an optional sign, then the longest run of
   * decimal digits; `None` is NaN (no digit at all).
   */
  function ParseInt(s: string): (r: Option<int>)
  {
    var t := TrimStart(s);
    var negative := t != [] && t[0] == '-';
    var unsigned := if t != [] && (t[0] == '-' || t[0] == '+') then t[1..] else t;
    var digits := DigitPrefix(unsigned);
    if digits == [] then None
    else Some(if negative then -(DigitsValue(digits) as int) else DigitsValue(digits))
  }

  /** Decimal text of a natural number, most significant digit first. */
  function NatText(n: nat): (t: string)
    ensures t != [] && AllDigits(t)
  {
    if n < 10 then [DigitChar(n)] else NatText(n / 10) + [DigitChar(n % 10)]
  }

  /** `String(n)` for an integer. */
  function DecimalText(n: int): string {
    if n < 0 then "-" + NatText(-n) else NatText(n)
  }

  /** `String(x)` for the result of parseInt: the digits, or "NaN". */
  function NumberText(x: Option<int>): string {
    match x
    case Some(n) => DecimalText(n)
    case None => "NaN"
  }

  lemma {:induction false} NatTextValue(n: nat)
    ensures DigitsValue(NatText(n)) == n
  {
    if n >= 10 {
      NatTextValue(n / 10);
      var t := NatText(n);
      assert t[..|t| - 1] == NatText(n / 10);
    }
  }

  lemma DigitPrefixOfDigits(d: string)
    requires AllDigits(d)
    ensures DigitPrefix(d) == d
  {
  }

  lemma ParseIntOfDigits(t: string)
    requires t != [] && AllDigits(t)
    ensures ParseInt(t) == Some(DigitsValue(t) as int)
  {
    assert IsDigit(t[0]);
    assert TrimStart(t) == t;
    DigitPrefixOfDigits(t);
  }

  lemma ParseIntOfNegatedDigits(t: string)
    requires t != [] && AllDigits(t)
    ensures ParseInt("-" + t) == Some(-(DigitsValue(t) as int))
  {
    var s := "-" + t;
    assert s[0] == '-' && !IsJsSpace(s[0]);
    assert TrimStart(s) == s;
    assert s[1..] == t;
    DigitPrefixOfDigits(t);
    var digits := DigitPrefix(s[1..]);
    assert digits == t;
  }

  /** parseInt reads back every integer's decimal text. */
  lemma ParseIntDecimalText(n: int)
    ensures ParseInt(DecimalText(n)) == Some(n)
  {
    if n < 0 {
      NatTextValue(-n);
      ParseIntOfNegatedDigits(NatText(-n));
    } else {
      NatTextValue(n);
      ParseIntOfDigits(NatText(n));
    }
  }
}
