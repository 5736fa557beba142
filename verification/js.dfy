/** The part of JavaScript's runtime semantics that the modelled services and
    middleware rely on: values, truthiness, the coercions done by `==`, `<`,
    `isNaN`, template literals and `parseInt`, and the `{status, message}`
    objects the services throw.

    Numbers are integers here: fractional values, NaN and infinities are not
    values of this model (NaN appears only as the `None` of a coercion). */
module Js {

  datatype Option<+T> = None | Some(value: T)

  /** A JavaScript value as far as the modelled code inspects it. */
  datatype Value =
    | Undefined
    | Null
    | Bool(b: bool)
    | Num(n: int)
    | Str(s: string)
    | Arr(elems: seq<Value>)
    | Other          // any other object; its contents are never inspected

  /** A plain object: its own properties. */
  type Object = map<string, Value>

  /** `o[key]`: a missing property reads as undefined. */
  function Get(o: Object, key: string): (v: Value)
    ensures key !in o ==> v == Undefined
    ensures key in o ==> v == o[key]
  {
    if key in o then o[key] else Undefined
  }

  /** The truthiness test of `if (v)` and `!v`. */
  predicate Truthy(v: Value)
  {
    match v
    case Undefined => false
    case Null => false
    case Bool(b) => b
    case Num(n) => n != 0
    case Str(s) => s != ""
    case Arr(_) => true
    case Other => true
  }

  /** `===` on values. Arrays and other objects compare by reference, which
      this model does not track, so two of them are never taken as equal. */
  predicate StrictEquals(a: Value, b: Value)
  {
    !a.Arr? && !a.Other? && a == b
  }

  // ---------------------------------------------------------------------
  // Decimal digits

  predicate IsDigit(c: char) { '0' <= c <= '9' }

  predicate AllDigits(s: string) { forall i :: 0 <= i < |s| ==> IsDigit(s[i]) }

  function DigitValue(c: char): (d: nat)
    requires IsDigit(c)
    ensures d < 10
  {
    (c as int) - ('0' as int)
  }

  function DigitChar(d: nat): (c: char)
    requires d < 10
    ensures IsDigit(c) && DigitValue(c) == d
  {
    (('0' as int) + d) as char
  }

  /** The decimal numeral of a natural number, without leading zeros. */
  function NatToDecimal(n: nat): (s: string)
    ensures |s| > 0 && AllDigits(s)
    ensures s[0] == '0' ==> n == 0
  {
    if n < 10 then [DigitChar(n)] else NatToDecimal(n / 10) + [DigitChar(n % 10)]
  }

  /** `${n}` for an integer n. */
  function IntToDecimal(n: int): string
  {
    if n < 0 then "-" + NatToDecimal(-n) else NatToDecimal(n)
  }

  /** The value of a string of decimal digits, most significant first. */
  function DigitsValue(s: string): nat
    requires AllDigits(s)
  {
    if s == [] then 0 else DigitsValue(s[..|s| - 1]) * 10 + DigitValue(s[|s| - 1])
  }

  lemma {:induction false} DigitsValueOfDecimal(n: nat)
    ensures DigitsValue(NatToDecimal(n)) == n
  {
    if n >= 10 {
      var s := NatToDecimal(n);
      DigitsValueOfDecimal(n / 10);
      assert s[..|s| - 1] == NatToDecimal(n / 10);
    }
  }

  /** The length of the longest prefix of s made of decimal digits. */
  function DigitRun(s: string): (k: nat)
    ensures k <= |s| && AllDigits(s[..k])
    ensures k < |s| ==> !IsDigit(s[k])
  {
    if s == [] || !IsDigit(s[0]) then 0
    else
      var k := 1 + DigitRun(s[1..]);
      assert s[..k] == [s[0]] + s[1..][..k - 1];
      k
  }

  lemma {:induction false} DigitRunOfDigits(s: string)
    requires AllDigits(s)
    ensures DigitRun(s) == |s|
  {
    if s != [] {
      DigitRunOfDigits(s[1..]);
    }
  }

  /** Splits an optional leading sign off a numeral: the sign (+1 or -1)
      and the rest. */
  function SplitSign(s: string): (r: (int, string))
    ensures r.0 == 1 || r.0 == -1
    ensures |r.1| <= |s|
  {
    if |s| > 0 && s[0] == '-' then (-1, s[1..])
    else if |s| > 0 && s[0] == '+' then (1, s[1..])
    else (1, s)
  }

  /** `Number(s)` for a string: the empty string is 0, an optionally signed
      run of digits is its value, anything else is NaN (None). */
  function StringToNumber(s: string): Option<int>
  {
    if s == "" then Some(0)
    else
      var (sign, digits) := SplitSign(s);
      if digits != "" && AllDigits(digits) then Some(sign * DigitsValue(digits)) else None
  }

  /** `parseInt(s)`: an optional sign followed by the longest run of digits;
      NaN (None) when there is no digit. */
  function ParseIntPrefix(s: string): (r: Option<int>)
    ensures r.Some? <==> DigitRun(SplitSign(s).1) > 0
  {
    var (sign, rest) := SplitSign(s);
    var k := DigitRun(rest);
    if k == 0 then None else Some(sign * DigitsValue(rest[..k]))
  }

  /** Rendering an integer and reading it back gives the integer again, both
      with `Number` and with `parseInt`. */
  lemma DecimalRoundTrip(n: int)
    ensures StringToNumber(IntToDecimal(n)) == Some(n)
    ensures ParseIntPrefix(IntToDecimal(n)) == Some(n)
  {
    var m: nat := if n < 0 then -n else n;
    var d := NatToDecimal(m);
    var sign := if n < 0 then -1 else 1;
    assert SplitSign(IntToDecimal(n)) == (sign, d);
    DigitsValueOfDecimal(m);
    DigitRunOfDigits(d);
    assert d[..|d|] == d;
    assert sign * DigitsValue(d) == n;
  }

  /** parseInt stops at the first character that is not a digit. */
  lemma ParseIntIgnoresTail(d: string, tail: string)
    requires d != "" && AllDigits(d)
    requires tail != [] ==> !IsDigit(tail[0])
    ensures ParseIntPrefix(d + tail) == Some(DigitsValue(d))
  {
    var s := d + tail;
    assert SplitSign(s) == (1, s);
    DigitRunPrefix(d, tail);
    assert s[..|d|] == d;
  }

  lemma {:induction false} DigitRunPrefix(d: string, tail: string)
    requires AllDigits(d)
    requires tail != [] ==> !IsDigit(tail[0])
    ensures DigitRun(d + tail) == |d|
  {
    if d != [] {
      assert (d + tail)[1..] == d[1..] + tail;
      DigitRunPrefix(d[1..], tail);
    }
  }

  // ---------------------------------------------------------------------
  // Splitting and joining strings

  /** `s.split(sep)` for a one-character separator: every occurrence of sep
      ends a field, so there is always at least one field. */
  function Split(s: string, sep: char): (fields: seq<string>)
    ensures |fields| >= 1
    ensures forall i :: 0 <= i < |fields| ==> sep !in fields[i]
    decreases |s|
  {
    if s == [] then [""]
    else
      var rest := Split(s[1..], sep);
      if s[0] == sep then [""] + rest
      else [[s[0]] + rest[0]] + rest[1..]
  }

  /** `fields.join(sep)`. */
  function Join(fields: seq<string>, sep: char): string
  {
    if fields == [] then ""
    else if |fields| == 1 then fields[0]
    else fields[0] + [sep] + Join(fields[1..], sep)
  }

  /** Joining one more field appends the separator and the field. */
  lemma {:induction false} JoinSnoc(fields: seq<string>, last: string, sep: char)
    requires |fields| >= 1
    ensures Join(fields + [last], sep) == Join(fields, sep) + [sep] + last
  {
    if |fields| > 1 {
      assert (fields + [last])[1..] == fields[1..] + [last];
      JoinSnoc(fields[1..], last, sep);
    }
  }

  /** A join begins with its first field. */
  lemma JoinStartsWithFirst(fields: seq<string>, sep: char)
    requires |fields| >= 1
    ensures |Join(fields, sep)| >= |fields[0]| && Join(fields, sep)[..|fields[0]|] == fields[0]
  {
  }

  /** Joining the fields of a split gives back the string. */
  lemma {:induction false} JoinSplit(s: string, sep: char)
    ensures Join(Split(s, sep), sep) == s
  {
    if s != [] {
      var rest := Split(s[1..], sep);
      JoinSplit(s[1..], sep);
      if s[0] == sep {
        assert Split(s, sep) == [""] + rest;
        assert s == [sep] + s[1..];
      } else if |rest| == 1 {
        assert Split(s, sep) == [[s[0]] + rest[0]];
        assert s == [s[0]] + s[1..];
      } else {
        var fields := Split(s, sep);
        assert fields == [[s[0]] + rest[0]] + rest[1..];
        assert fields[1..] == rest[1..];
        assert Join(rest, sep) == rest[0] + [sep] + Join(rest[1..], sep);
        assert s == [s[0]] + s[1..];
      }
    }
  }

  lemma {:induction false} SplitWithoutSep(a: string, sep: char)
    requires sep !in a
    ensures Split(a, sep) == [a]
  {
    if a != [] {
      SplitWithoutSep(a[1..], sep);
      assert a == [a[0]] + a[1..];
    }
  }

  lemma {:induction false} SplitAtFirstSep(a: string, sep: char, t: string)
    requires sep !in a
    ensures Split(a + [sep] + t, sep) == [a] + Split(t, sep)
  {
    if a == [] {
      assert a + [sep] + t == [sep] + t;
    } else {
      var s := a + [sep] + t;
      assert s[1..] == a[1..] + [sep] + t;
      SplitAtFirstSep(a[1..], sep, t);
      assert a == [a[0]] + a[1..];
    }
  }

  /** Splitting a join of separator-free fields gives back the fields. */
  lemma {:induction false} SplitJoin(fields: seq<string>, sep: char)
    requires |fields| >= 1
    requires forall i :: 0 <= i < |fields| ==> sep !in fields[i]
    ensures Split(Join(fields, sep), sep) == fields
  {
    if |fields| == 1 {
      SplitWithoutSep(fields[0], sep);
    } else {
      SplitJoin(fields[1..], sep);
      SplitAtFirstSep(fields[0], sep, Join(fields[1..], sep));
      assert fields == [fields[0]] + fields[1..];
    }
  }

  // ---------------------------------------------------------------------
  // Coercions

  /** `String(v)`, as used by template literals and by `RegExp.test`. */
  function ToStr(v: Value): string
    decreases v
  {
    match v
    case Undefined => "undefined"
    case Null => "null"
    case Bool(b) => if b then "true" else "false"
    case Num(n) => IntToDecimal(n)
    case Str(s) => s
    case Arr(es) =>
      // Array.prototype.join: undefined and null elements print as "".
      JoinComma(seq(|es|, i requires 0 <= i < |es| =>
        if es[i].Undefined? || es[i].Null? then "" else ToStr(es[i])))
    case Other => "[object Object]"
  }

  function JoinComma(parts: seq<string>): string
  {
    if parts == [] then ""
    else if |parts| == 1 then parts[0]
    else JoinComma(parts[..|parts| - 1]) + "," + parts[|parts| - 1]
  }

  /** `Number(v)`; None stands for NaN. Objects convert through their string
      form. */
  function ToNumber(v: Value): Option<int>
  {
    match v
    case Undefined => None
    case Null => Some(0)
    case Bool(b) => Some(if b then 1 else 0)
    case Num(n) => Some(n)
    case Str(s) => StringToNumber(s)
    case Arr(_) => StringToNumber(ToStr(v))
    case Other => None
  }

  /** `isNaN(v)`. */
  predicate IsNaN(v: Value) { ToNumber(v).None? }

  /** `v == k` for a number k (loose equality): null and undefined equal no
      number; every other value is converted to a number. */
  predicate LooseEqualsNumber(v: Value, k: int)
  {
    !v.Undefined? && !v.Null? && ToNumber(v) == Some(k)
  }

  /** `v > k` and `v < k` for a number k: v is converted, NaN compares false. */
  predicate GreaterThan(v: Value, k: int) { ToNumber(v).Some? && ToNumber(v).value > k }
  predicate LessThan(v: Value, k: int) { ToNumber(v).Some? && ToNumber(v).value < k }

  /** `v.length`: defined for strings and arrays only. */
  function LengthOf(v: Value): Option<nat>
  {
    match v
    case Str(s) => Some(|s|)
    case Arr(es) => Some(|es|)
    case _ => None
  }

  /** `v` is undefined or null: reading any property of it, `.length`
      included, throws a TypeError. */
  predicate Nullish(v: Value)
  {
    v == Undefined || v == Null
  }

  /** `v.length < k`: an undefined length compares false. */
  predicate ShorterThan(v: Value, k: nat)
  {
    LengthOf(v).Some? && LengthOf(v).value < k
  }

  // ---------------------------------------------------------------------
  // Errors

  /** What a service throws: an object `{status, message}`, or a runtime
      fault (a TypeError from reading a property of undefined, say), which
      carries no status. */
  datatype Thrown = Thrown(status: int, message: string) | Fault

  datatype Result<+T> = Ok(value: T) | Err(error: Thrown)

  datatype Outcome = Pass | Fail(error: Thrown)
}
